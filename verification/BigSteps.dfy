/** How the parts of a Big node's invariant survive the changes an event makes. */
module BigSteps {
  import opened Blocks
  import opened Quorum
  import opened CommitLog
  import opened ViewChange
  import opened BigNode
  import opened BigInvariant
  import Spb
  import SpbInvariant
  import SpbOrder
  import opened SpbGrowth
  import Elector

  // ----- A node moves on -----

  /** Nothing a node has done is undone. */
  ghost predicate NodeGrows(nd: Node, nd': Node) {
    && (forall k: Key :: Grows(InstanceAt(nd, k), InstanceAt(nd', k)))
    && Onward(nd, nd')
  }

  /** The core moves on: a view is never processed again. */
  ghost predicate Onward(nd: Node, nd': Node) {
    && (nd.started ==> nd'.started) && nd.progress.view <= nd'.progress.view && nd.got <= nd'.got
    && (forall w :: w in nd.elector.leaders ==> w in nd'.elector.leaders)
    && (nd'.coin.Some? ==>
          || (nd.coin.Some? && nd.coin.value.view == nd'.coin.value.view)
          || nd'.coin.value.view !in nd.elector.leaders)
  }

  lemma BackedGrows(id: NodeId, nd: Node, nd': Node, m: Msg)
    requires Backed(id, nd, m) && NodeGrows(nd, nd')
    ensures Backed(id, nd', m)
  {
    hide InstanceAt; hide Hash;
    match m {
      case ProposeMsg(b) => assert Grows(InstanceAt(nd, Key(b.view, id)), InstanceAt(nd', Key(b.view, id)));
      case Voting(v) =>
        assert Grows(InstanceAt(nd, Key(v.view, v.proposer)), InstanceAt(nd', Key(v.view, v.proposer)));
      case SpeedVoting(sv) =>
        assert Grows(InstanceAt(nd, Key(sv.view, sv.proposer)), InstanceAt(nd', Key(sv.view, sv.proposer)));
      case _ =>
    }
  }

  lemma OwnGrows(id: NodeId, nd: Node, nd': Node, sent: set<Msg>)
    requires OwnSentOk(id, nd, sent) && NodeGrows(nd, nd')
    ensures OwnSentOk(id, nd', sent)
  {
    hide Backed; hide NodeGrows;
    forall m | m in sent && Sender(m) == id ensures Backed(id, nd', m) {
      BackedGrows(id, nd, nd', m);
    }
  }

  // ----- Instances -----

  lemma KeyParts(cfg: Config, nd: Node, k: Key)
    requires InstancesOk(cfg, nd) && HistoryOk(nd)
    ensures InstanceOk(cfg, k, InstanceAt(nd, k)) && KeyHistory(k, InstanceAt(nd, k), nd.got)
  {
    hide InstanceOk; hide KeyHistory; hide InstanceAt;
  }

  /** One instance changes. */
  lemma UpdateInstance(cfg: Config, nd: Node, nd': Node, k: Key, y: Spb.Instance)
    requires InstancesOk(cfg, nd) && HistoryOk(nd)
    requires InstanceOk(cfg, k, y) && Grows(InstanceAt(nd, k), y) && KeyHistory(k, y, nd'.got)
    requires nd'.instances == nd.instances[k := y] && Onward(nd, nd')
    ensures InstancesOk(cfg, nd') && HistoryOk(nd') && NodeGrows(nd, nd')
  {
    hide InstanceOk; hide KeyHistory; hide Grows;
    forall c: Key
      ensures InstanceOk(cfg, c, InstanceAt(nd', c)) && KeyHistory(c, InstanceAt(nd', c), nd'.got)
      ensures Grows(InstanceAt(nd, c), InstanceAt(nd', c))
    {
      if c == k {
        assert InstanceAt(nd', c) == y;
      } else {
        assert InstanceAt(nd', c) == InstanceAt(nd, c);
        KeyParts(cfg, nd, c);
        HistoryGrows(c, InstanceAt(nd, c), nd.got, nd'.got);
        GrowsSelf(InstanceAt(nd, c));
      }
    }
  }

  lemma GrowsSelf(x: Spb.Instance)
    ensures Grows(x, x)
  {
  }

  lemma HistoryGrows(k: Key, x: Spb.Instance, got: set<Msg>, got': set<Msg>)
    requires KeyHistory(k, x, got) && got <= got'
    ensures KeyHistory(k, x, got')
  {
  }

  /** No instance changes. */
  lemma SameInstances(cfg: Config, nd: Node, nd': Node)
    requires InstancesOk(cfg, nd) && HistoryOk(nd) && nd'.instances == nd.instances && Onward(nd, nd')
    ensures InstancesOk(cfg, nd') && HistoryOk(nd') && NodeGrows(nd, nd')
  {
    hide InstanceOk; hide KeyHistory; hide Grows;
    forall c: Key
      ensures InstanceOk(cfg, c, InstanceAt(nd', c)) && KeyHistory(c, InstanceAt(nd', c), nd'.got)
      ensures Grows(InstanceAt(nd, c), InstanceAt(nd', c))
    {
      assert InstanceAt(nd', c) == InstanceAt(nd, c);
      KeyParts(cfg, nd, c);
      HistoryGrows(c, InstanceAt(nd, c), nd.got, nd'.got);
      GrowsSelf(InstanceAt(nd, c));
    }
  }

  lemma DeliverOk(cfg: Config, k: Key, x: Spb.Instance, y: Spb.Instance, d: Spb.Delivery)
    requires InstanceOk(cfg, k, x) && Spb.Deliverable(x, d) && y == Spb.Deliver(x, d)
    ensures InstanceOk(cfg, k, y) && Grows(x, y)
  {
    SpbInvariant.DeliverKeeps(x, y, High(cfg.n), d);
    DeliverGrows(x, y, d);
    hide SpbInvariant.Inv;
  }

  lemma TaskOk(cfg: Config, k: Key, x: Spb.Instance, y: Spb.Instance, t: Spb.Task)
    requires InstanceOk(cfg, k, x) && Spb.Pending(x, t) && y == Spb.Run(x, High(cfg.n), t)
    ensures InstanceOk(cfg, k, y) && Grows(x, y)
  {
    hide SpbInvariant.Inv; hide Spb.Run; hide Spb.Pending; hide SlotGrows;
    SpbInvariant.RunKeeps(x, y, High(cfg.n), t);
    RunGrows(x, y, High(cfg.n), t);
  }

  lemma TaskHistory(k: Key, x: Spb.Instance, y: Spb.Instance, got: set<Msg>, high: nat, t: Spb.Task)
    requires KeyHistory(k, x, got) && Spb.Pending(x, t) && y == Spb.Run(x, high, t)
    ensures KeyHistory(k, y, got)
  {
    hide Spb.Run; hide Spb.Pending; hide VoteHistory; hide SpeedHistory;
    SpbOrder.RunFrame(x, y, high, t);
  }

  /** The message an instance receives when the node handles it. */
  function Delivered(m: Msg): Option<Spb.Delivery> {
    match m
    case ProposeMsg(b) => Some(Spb.Proposal(b))
    case Voting(v) => Some(Spb.Vote(v))
    case SpeedVoting(sv) => Some(Spb.SpeedVote(sv))
    case _ => None
  }

  function KeyOf(m: Msg): Key {
    match m
    case ProposeMsg(b) => Key(b.view, b.author)
    case Voting(v) => Key(v.view, v.proposer)
    case SpeedVoting(sv) => Key(sv.view, sv.author)
    case _ => Key(0, 0)
  }

  lemma VoteArrives(votes: multiset<VoteMsg>, got: set<Msg>, v: VoteMsg)
    requires VoteHistory(votes, got) && Voting(v) !in got
    ensures VoteHistory(votes + multiset{v}, got + {Voting(v)})
  {
  }

  lemma SpeedArrives(k: Key, votes: multiset<SpeedVoteMsg>, got: set<Msg>, sv: SpeedVoteMsg)
    requires SpeedHistory(k, votes, got) && SpeedVoting(sv) !in got && sv.author == k.node
    ensures SpeedHistory(k, votes + multiset{sv}, got + {SpeedVoting(sv)})
  {
  }

  lemma DeliverHistory(x: Spb.Instance, y: Spb.Instance, got: set<Msg>, m: Msg)
    requires KeyHistory(KeyOf(m), x, got) && m !in got && Delivered(m).Some? && y == Spb.Deliver(x, Delivered(m).value)
    ensures KeyHistory(KeyOf(m), y, got + {m})
  {
    HistoryGrows(KeyOf(m), x, got, got + {m});
    hide VoteHistory; hide SpeedHistory;
    match m {
      case ProposeMsg(b) =>
      case Voting(v) => VoteArrives(x.At(v.height).votes, got, v);
      case SpeedVoting(sv) => SpeedArrives(KeyOf(m), x.fast.speedVotes, got, sv);
    }
  }

  /** The slot of a new proposal is empty, because positions are used once. */
  lemma ProposalFits(cfg: Config, k: Key, x: Spb.Instance, got: set<Msg>, sent: set<Msg>, b: Block)
    requires cfg.n >= 1 && InstanceOk(cfg, k, x) && KeyHistory(k, x, got) && SentOk(cfg, sent) && got <= sent
    requires ProposeMsg(b) in sent && ProposeMsg(b) !in got && k == Key(b.view, b.author)
    ensures Spb.Deliverable(x, Spb.Proposal(b))
  {
    hide SentOk; hide Hash; hide VoteHistory; hide SpeedHistory; hide SpbInvariant.Inv;
    SlotHolds(cfg, k, x, b.height);
    var p := x.At(b.height).proposal;
    if p.Some? && SamePosition(p.value, b) {
      OnlyBlock(cfg, sent, p.value, b);
    }
    if b.height.H2? {
      SecondHasQc(cfg, sent, b);
    }
  }

  lemma SlotHolds(cfg: Config, k: Key, x: Spb.Instance, h: Height)
    requires InstanceOk(cfg, k, x)
    ensures var p := x.At(h).proposal;
      p.Some? ==> p.value.author == k.node && p.value.view == k.view && p.value.height == h
  {
    SpbInvariant.SlotParts(x, High(cfg.n));
    hide SpbInvariant.Inv; hide Hash;
  }

  lemma MessageFits(cfg: Config, x: Spb.Instance, got: set<Msg>, sent: set<Msg>, m: Msg)
    requires cfg.n >= 1 && InstanceOk(cfg, KeyOf(m), x) && KeyHistory(KeyOf(m), x, got) && SentOk(cfg, sent)
    requires got <= sent
    requires m in sent && m !in got && Delivered(m).Some?
    ensures Spb.Deliverable(x, Delivered(m).value)
  {
    hide SentOk; hide KeyHistory; hide InstanceOk;
    match m {
      case ProposeMsg(b) => ProposalFits(cfg, KeyOf(m), x, got, sent, b);
      case Voting(v) => VoteFits(cfg, KeyOf(m), x, sent, v);
      case SpeedVoting(sv) =>
    }
  }

  lemma VoteFits(cfg: Config, k: Key, x: Spb.Instance, sent: set<Msg>, v: VoteMsg)
    requires cfg.n >= 1 && InstanceOk(cfg, k, x) && SentOk(cfg, sent) && Voting(v) in sent
    requires k == Key(v.view, v.proposer)
    ensures Spb.Deliverable(x, Spb.Vote(v))
  {
    hide SentOk; hide SpbInvariant.Inv; hide Hash;
    MsgOf(cfg, sent, Voting(v));
  }

  // ----- Counters, coin, store -----

  lemma CountersFrame(cfg: Config, nd: Node, nd': Node)
    requires CountersOk(cfg, nd) && nd'.progress == nd.progress && nd.got <= nd'.got
    ensures CountersOk(cfg, nd')
  {
    hide Reporters; hide AllOpen; hide High;
    forall v: nat, level: Level ensures |HeardFrom(cfg.n, nd.got, v, level)| <= |HeardFrom(cfg.n, nd'.got, v, level)| {
      ReportersGrow(cfg.n, nd.got, nd'.got, v, level);
    }
  }

  lemma CoinFrame(cfg: Config, nd: Node, nd': Node)
    requires CoinOk(cfg, nd) && NodeGrows(nd, nd') && nd'.coin == nd.coin && nd'.elector == nd.elector
    ensures CoinOk(cfg, nd')
  {
    hide LeaderOf; hide Elector.Sound; hide InstanceAt;
    if nd.coin.Some? {
      var k := Key(nd.coin.value.view, nd.coin.value.leader);
      assert Grows(InstanceAt(nd, k), InstanceAt(nd', k));
    }
  }

  lemma StoreProposal(nd: Node, nd': Node, b: Block)
    requires StoreOk(nd) && nd'.store == nd.store[Hash(b) := b] && nd'.gate == nd.gate
    requires nd'.got == nd.got + {ProposeMsg(b)}
    ensures StoreOk(nd')
  {
    hide Hash;
  }

  lemma StoreFrame(nd: Node, nd': Node)
    requires StoreOk(nd) && nd'.store == nd.store && nd'.gate == nd.gate && nd.got <= nd'.got
    requires forall b :: ProposeMsg(b) in nd'.got ==> ProposeMsg(b) in nd.got
    ensures StoreOk(nd')
  {
    hide Hash;
  }

  lemma EnqueueStore(nd: Node, nd': Node, d: Digest)
    requires StoreOk(nd) && d in nd.store
    requires nd'.store == nd.store && nd'.got == nd.got && nd'.gate == Enqueue(nd.gate, nd.store[d])
    ensures StoreOk(nd')
  {
    hide Hash;
  }

  lemma NodeParts(cfg: Config, id: NodeId, nd: Node, sent: set<Msg>)
    requires NodeOk(cfg, id, nd, sent)
    ensures InstancesOk(cfg, nd) && HistoryOk(nd) && OwnSentOk(id, nd, sent) && CountersOk(cfg, nd)
    ensures CoinOk(cfg, nd) && StoreOk(nd) && GotOk(nd, sent)
  {
    hide InstancesOk; hide HistoryOk; hide OwnSentOk; hide CountersOk; hide CoinOk; hide StoreOk; hide GotOk;
  }

  lemma NodeAssembled(cfg: Config, id: NodeId, nd: Node, sent: set<Msg>)
    requires InstancesOk(cfg, nd) && HistoryOk(nd) && OwnSentOk(id, nd, sent) && CountersOk(cfg, nd)
    requires CoinOk(cfg, nd) && StoreOk(nd) && GotOk(nd, sent)
    ensures NodeOk(cfg, id, nd, sent)
  {
    hide InstancesOk; hide HistoryOk; hide OwnSentOk; hide CountersOk; hide CoinOk; hide StoreOk; hide GotOk;
  }

  /** What a step must establish for its own node and the messages sent. */
  ghost predicate StepOk(cfg: Config, id: NodeId, nd': Node, sent: set<Msg>, out: Option<Msg>)
    requires cfg.n >= 1
  {
    match out
    case None => NodeOk(cfg, id, nd', sent)
    case Some(m) =>
      && Sender(m) == id && (!m.ElectMsg? ==> m !in sent)
      && SentOk(cfg, sent + {m}) && NodeOk(cfg, id, nd', sent + {m})
  }

  /** A message that was not backed before the step is new. */
  lemma Sends(cfg: Config, id: NodeId, nd: Node, nd': Node, sent: set<Msg>, m: Msg)
    requires cfg.n >= 1 && SentOk(cfg, sent) && NodeOk(cfg, id, nd, sent) && NodeOk(cfg, id, nd', sent)
    requires Sender(m) == id && MsgOk(cfg, sent, m) && Backed(id, nd', m)
    requires !m.ElectMsg? ==> !Backed(id, nd, m)
    requires forall w :: Rivals(m, w) ==> Sender(w) == id && !Backed(id, nd, w)
    ensures StepOk(cfg, id, nd', sent, Some(m))
  {
    hide SentOk; hide NodeOk; hide MsgOk; hide Backed; hide Rivals;
    NodeParts(cfg, id, nd, sent);
    SentAdds(cfg, sent, m);
    NodeWaits(cfg, id, nd', sent, m);
  }
}
