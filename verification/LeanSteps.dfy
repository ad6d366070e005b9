/** How the parts of a lean node's invariant survive the changes an event makes. */
module LeanSteps {
  import opened Blocks
  import opened Quorum
  import opened CommitLog
  import opened LeanSpb
  import opened LeanConservation
  import LeanConfluence
  import opened ViewChange
  import opened LeanNode
  import opened LeanInvariant

  // ----- A node moves on -----

  /** Nothing a node has done is undone. */
  ghost predicate NodeGrows(nd: Node, nd': Node) {
    && (forall k: Key :: Grows(InstanceAt(nd, k), InstanceAt(nd', k)))
    && (nd.started ==> nd'.started) && nd.progress.view <= nd'.progress.view
    && nd.coinViews <= nd'.coinViews && nd.got <= nd'.got
  }

  lemma BackedGrows(id: NodeId, nd: Node, nd': Node, m: Msg)
    requires Backed(id, nd, m) && NodeGrows(nd, nd')
    ensures Backed(id, nd', m)
  {
    hide InstanceAt; hide Hash;
    match m {
      case ProposeMsg(b) => assert Grows(InstanceAt(nd, Key(b.view, id)), InstanceAt(nd', Key(b.view, id)));
      case VoteOf(v) =>
        assert Grows(InstanceAt(nd, Key(v.view, v.proposer)), InstanceAt(nd', Key(v.view, v.proposer)));
      case FinOf(fv) => assert Grows(InstanceAt(nd, Key(fv.view, id)), InstanceAt(nd', Key(fv.view, id)));
      case SpeedOf(sv) =>
        assert Grows(InstanceAt(nd, Key(sv.view, sv.proposer)), InstanceAt(nd', Key(sv.view, sv.proposer)));
      case _ =>
    }
  }

  lemma OwnGrows(id: NodeId, nd: Node, nd': Node, sent: set<Msg>)
    requires OwnSentOk(id, nd, sent) && NodeGrows(nd, nd')
    ensures OwnSentOk(id, nd', sent)
  {
    hide Backed; hide NodeGrows;
    forall m | m in sent && Sender(m) == id ensures Backed(id, nd', m) {
      BackedGrows(id, nd, nd', m);
    }
  }

  // ----- Instances -----

  lemma KeyParts(cfg: Config, nd: Node, k: Key)
    requires InstancesOk(cfg, nd) && HistoryOk(nd)
    ensures InstanceOk(cfg, k, InstanceAt(nd, k)) && KeyHistory(InstanceAt(nd, k), nd.got)
  {
    hide InstanceOk; hide KeyHistory; hide InstanceAt;
  }

  /** One instance changes. */
  lemma UpdateInstance(cfg: Config, nd: Node, nd': Node, k: Key, y: Instance)
    requires InstancesOk(cfg, nd) && HistoryOk(nd)
    requires InstanceOk(cfg, k, y) && Grows(InstanceAt(nd, k), y) && KeyHistory(y, nd'.got)
    requires nd'.instances == nd.instances[k := y] && nd.got <= nd'.got
    requires (nd.started ==> nd'.started) && nd.progress.view <= nd'.progress.view && nd.coinViews <= nd'.coinViews
    ensures InstancesOk(cfg, nd') && HistoryOk(nd') && NodeGrows(nd, nd')
  {
    hide InstanceOk; hide KeyHistory; hide Grows;
    forall c: Key
      ensures InstanceOk(cfg, c, InstanceAt(nd', c)) && KeyHistory(InstanceAt(nd', c), nd'.got)
      ensures Grows(InstanceAt(nd, c), InstanceAt(nd', c))
    {
      if c == k {
        assert InstanceAt(nd', c) == y;
      } else {
        assert InstanceAt(nd', c) == InstanceAt(nd, c);
        KeyParts(cfg, nd, c);
        HistoryGrows(InstanceAt(nd, c), nd.got, nd'.got);
        GrowsSelf(InstanceAt(nd, c));
      }
    }
  }

  lemma GrowsSelf(x: Instance)
    ensures Grows(x, x)
  {
  }

  lemma HistoryGrows(x: Instance, got: set<Msg>, got': set<Msg>)
    requires KeyHistory(x, got) && got <= got'
    ensures KeyHistory(x, got')
  {
  }

  /** No instance changes. */
  lemma SameInstances(cfg: Config, nd: Node, nd': Node)
    requires InstancesOk(cfg, nd) && HistoryOk(nd) && nd'.instances == nd.instances && nd.got <= nd'.got
    requires (nd.started ==> nd'.started) && nd.progress.view <= nd'.progress.view && nd.coinViews <= nd'.coinViews
    ensures InstancesOk(cfg, nd') && HistoryOk(nd') && NodeGrows(nd, nd')
  {
    hide InstanceOk; hide KeyHistory; hide Grows;
    forall c: Key
      ensures InstanceOk(cfg, c, InstanceAt(nd', c)) && KeyHistory(InstanceAt(nd', c), nd'.got)
      ensures Grows(InstanceAt(nd, c), InstanceAt(nd', c))
    {
      assert InstanceAt(nd', c) == InstanceAt(nd, c);
      KeyParts(cfg, nd, c);
      HistoryGrows(InstanceAt(nd, c), nd.got, nd'.got);
      GrowsSelf(InstanceAt(nd, c));
    }
  }

  lemma DeliverOk(cfg: Config, k: Key, x: Instance, y: Instance, d: Delivery)
    requires InstanceOk(cfg, k, x) && Deliverable(x, d) && y == Deliver(x, d)
    ensures InstanceOk(cfg, k, y) && Grows(x, y)
  {
    hide Inv; hide Deliver; hide Deliverable; hide Grows;
    DeliverKeeps(x, y, High(cfg.n), d);
    DeliverGrows(x, y, d);
  }

  lemma TaskOk(cfg: Config, k: Key, x: Instance, y: Instance, t: Task)
    requires InstanceOk(cfg, k, x) && Pending(x, t) && y == Run(x, High(cfg.n), t)
    ensures InstanceOk(cfg, k, y) && Grows(x, y)
  {
    hide Inv; hide Run; hide Pending; hide Grows;
    RunKeeps(x, y, High(cfg.n), t);
    RunGrows(x, y, High(cfg.n), t);
  }

  lemma TaskHistory(x: Instance, y: Instance, got: set<Msg>, high: nat, t: Task)
    requires KeyHistory(x, got) && Pending(x, t) && y == Run(x, high, t)
    ensures KeyHistory(y, got)
  {
    hide Run; hide Pending; hide VoteHistory; hide SpeedHistory;
    LeanConfluence.RunFrame(x, y, high, t);
  }

  /** The message an instance receives when the node handles it. */
  function Delivered(m: Msg): Option<Delivery> {
    match m
    case ProposeMsg(b) => Some(Proposal(b))
    case VoteOf(v) => Some(Vote(v))
    case FinOf(fv) => Some(Fin(fv))
    case SpeedOf(sv) => Some(SpeedVote(sv))
    case _ => None
  }

  function KeyOf(m: Msg): Key {
    match m
    case ProposeMsg(b) => Key(b.view, b.author)
    case VoteOf(v) => Key(v.view, v.proposer)
    case FinOf(fv) => Key(fv.view, fv.author)
    case SpeedOf(sv) => Key(sv.view, sv.proposer)
    case _ => Key(0, 0)
  }

  lemma VoteArrives(votes: multiset<VoteMsg>, got: set<Msg>, v: VoteMsg)
    requires VoteHistory(votes, got) && VoteOf(v) !in got
    ensures VoteHistory(votes + multiset{v}, got + {VoteOf(v)})
  {
  }

  lemma SpeedArrives(votes: multiset<SpeedVoteMsg>, got: set<Msg>, sv: SpeedVoteMsg)
    requires SpeedHistory(votes, got) && SpeedOf(sv) !in got
    ensures SpeedHistory(votes + multiset{sv}, got + {SpeedOf(sv)})
  {
  }

  lemma DeliverHistory(x: Instance, y: Instance, got: set<Msg>, m: Msg)
    requires KeyHistory(x, got) && m !in got && Delivered(m).Some? && y == Deliver(x, Delivered(m).value)
    ensures KeyHistory(y, got + {m})
  {
    HistoryGrows(x, got, got + {m});
    hide VoteHistory; hide SpeedHistory;
    match m {
      case ProposeMsg(b) =>
      case VoteOf(v) => VoteArrives(x.At(v.height).votes, got, v);
      case FinOf(fv) =>
      case SpeedOf(sv) => SpeedArrives(x.fast.speedVotes, got, sv);
    }
  }

  /** The slot of a new proposal is empty, because positions are used once. */
  lemma ProposalFits(cfg: Config, k: Key, x: Instance, got: set<Msg>, sent: set<Msg>, b: Block)
    requires cfg.n >= 1 && InstanceOk(cfg, k, x) && KeyHistory(x, got) && SentOk(cfg, sent) && got <= sent
    requires ProposeMsg(b) in sent && ProposeMsg(b) !in got && k == Key(b.view, b.author)
    ensures Deliverable(x, Proposal(b))
  {
    hide SentOk; hide Hash; hide VoteHistory; hide SpeedHistory; hide Inv;
    SlotHolds(cfg, k, x, b.height);
    var p := x.At(b.height).proposal;
    if p.Some? && SamePosition(p.value, b) {
      OnlyBlock(cfg, sent, p.value, b);
    }
    if b.height.H2? {
      SecondHasQc(cfg, sent, b);
    }
  }

  lemma SlotHolds(cfg: Config, k: Key, x: Instance, h: Height)
    requires InstanceOk(cfg, k, x)
    ensures var p := x.At(h).proposal;
      p.Some? ==> p.value.author == k.node && p.value.view == k.view && p.value.height == h
  {
    InvParts(x, High(cfg.n));
    hide Inv; hide TallyOk; hide ParkedOk; hide EndingOk; hide FastOk; hide Hash;
  }

  lemma VoteFits(cfg: Config, k: Key, x: Instance, got: set<Msg>, sent: set<Msg>, v: VoteMsg)
    requires cfg.n >= 1 && InstanceOk(cfg, k, x) && KeyHistory(x, got) && SentOk(cfg, sent) && got <= sent
    requires VoteOf(v) in sent && k == Key(v.view, v.proposer)
    ensures Deliverable(x, Vote(v))
  {
    hide SentOk; hide SpeedHistory; hide Inv;
    forall u | u in x.At(v.height).votes ensures u.hash == v.hash {
      VotesHold(cfg, k, x, v.height, u);
      VotesAgree(cfg, sent, u, v);
    }
  }

  lemma VotesHold(cfg: Config, k: Key, x: Instance, h: Height, u: VoteMsg)
    requires InstanceOk(cfg, k, x) && u in x.At(h).votes
    ensures u.proposer == k.node && u.view == k.view && u.height == h
  {
    InvParts(x, High(cfg.n));
    hide Inv; hide ProposalOk; hide ParkedOk; hide EndingOk; hide FastOk; hide Hash;
  }

  lemma FinFits(cfg: Config, k: Key, x: Instance, got: set<Msg>, sent: set<Msg>, fv: FinVote)
    requires cfg.n >= 1 && InstanceOk(cfg, k, x) && KeyHistory(x, got) && SentOk(cfg, sent) && got <= sent
    requires FinOf(fv) in sent && FinOf(fv) !in got && k == Key(fv.view, fv.author)
    ensures Deliverable(x, Fin(fv))
  {
    hide SentOk; hide VoteHistory; hide SpeedHistory; hide Inv; hide FinOk;
    FinFacts(cfg, sent, fv);
    FinHolds(cfg, k, x);
    if x.end.fin.Some? {
      OnlyFin(cfg, sent, x.end.fin.value, fv);
    }
  }

  lemma FinHolds(cfg: Config, k: Key, x: Instance)
    requires InstanceOk(cfg, k, x)
    ensures x.end.fin.Some? ==> x.end.fin.value.author == k.node && x.end.fin.value.view == k.view
  {
    InvParts(x, High(cfg.n));
    hide Inv; hide ProposalOk; hide ParkedOk; hide TallyOk; hide FastOk; hide Hash;
  }

  lemma MessageFits(cfg: Config, x: Instance, got: set<Msg>, sent: set<Msg>, m: Msg)
    requires cfg.n >= 1 && InstanceOk(cfg, KeyOf(m), x) && KeyHistory(x, got) && SentOk(cfg, sent) && got <= sent
    requires m in sent && m !in got && Delivered(m).Some?
    ensures Deliverable(x, Delivered(m).value)
  {
    hide SentOk; hide KeyHistory; hide InstanceOk;
    match m {
      case ProposeMsg(b) => hide Deliverable; ProposalFits(cfg, KeyOf(m), x, got, sent, b);
      case VoteOf(v) => hide Deliverable; VoteFits(cfg, KeyOf(m), x, got, sent, v);
      case FinOf(fv) => hide Deliverable; FinFits(cfg, KeyOf(m), x, got, sent, fv);
      case SpeedOf(sv) =>
    }
  }

  // ----- Counters, coin, store -----

  lemma CountersFrame(cfg: Config, nd: Node, nd': Node)
    requires CountersOk(cfg, nd) && nd'.progress == nd.progress && nd.got <= nd'.got
    ensures CountersOk(cfg, nd')
  {
    hide Reporters; hide AllOpen; hide High;
    forall v: nat, level: Level ensures |HeardFrom(cfg.n, nd.got, v, level)| <= |HeardFrom(cfg.n, nd'.got, v, level)| {
      ReportersGrow(cfg.n, nd.got, nd'.got, v, level);
    }
  }

  lemma NoCoin(cfg: Config, nd: Node)
    requires nd.coin.None?
    ensures CoinOk(cfg, nd)
  {
  }

  lemma CoinGrows(cfg: Config, nd: Node, nd': Node)
    requires CoinOk(cfg, nd) && NodeGrows(nd, nd') && nd'.coin == nd.coin && nd'.coinViews == nd.coinViews
    ensures CoinOk(cfg, nd')
  {
    hide LeaderOf; hide InstanceAt;
    if nd.coin.Some? {
      var k := Key(nd.coin.value.view, nd.coin.value.leader);
      assert Grows(InstanceAt(nd, k), InstanceAt(nd', k));
    }
  }

  lemma StoreProposal(nd: Node, nd': Node, b: Block)
    requires StoreOk(nd) && nd'.store == nd.store[Hash(b) := b] && nd'.gate == nd.gate
    requires nd'.got == nd.got + {ProposeMsg(b)}
    ensures StoreOk(nd')
  {
    hide Hash;
  }

  lemma StoreFrame(nd: Node, nd': Node)
    requires StoreOk(nd) && nd'.store == nd.store && nd'.gate == nd.gate && nd.got <= nd'.got
    requires forall b :: ProposeMsg(b) in nd'.got ==> ProposeMsg(b) in nd.got
    ensures StoreOk(nd')
  {
    hide Hash;
  }

  lemma EnqueueStore(nd: Node, nd': Node, d: Digest)
    requires StoreOk(nd) && d in nd.store
    requires nd'.store == nd.store && nd'.got == nd.got && nd'.gate == Enqueue(nd.gate, nd.store[d])
    ensures StoreOk(nd')
  {
    hide Hash;
  }

  lemma NodeParts(cfg: Config, id: NodeId, nd: Node, sent: set<Msg>)
    requires NodeOk(cfg, id, nd, sent)
    ensures InstancesOk(cfg, nd) && HistoryOk(nd) && OwnSentOk(id, nd, sent) && CountersOk(cfg, nd)
    ensures CoinOk(cfg, nd) && StoreOk(nd) && GotOk(id, nd, sent)
  {
    hide InstancesOk; hide HistoryOk; hide OwnSentOk; hide CountersOk; hide CoinOk; hide StoreOk; hide GotOk;
  }

  lemma NodeAssembled(cfg: Config, id: NodeId, nd: Node, sent: set<Msg>)
    requires InstancesOk(cfg, nd) && HistoryOk(nd) && OwnSentOk(id, nd, sent) && CountersOk(cfg, nd)
    requires CoinOk(cfg, nd) && StoreOk(nd) && GotOk(id, nd, sent)
    ensures NodeOk(cfg, id, nd, sent)
  {
    hide InstancesOk; hide HistoryOk; hide OwnSentOk; hide CountersOk; hide CoinOk; hide StoreOk; hide GotOk;
  }

  /** What a step must establish for its own node and the messages sent. */
  ghost predicate StepOk(cfg: Config, id: NodeId, nd': Node, sent: set<Msg>, out: Option<Msg>)
    requires cfg.n >= 1
  {
    match out
    case None => NodeOk(cfg, id, nd', sent)
    case Some(m) =>
      && Sender(m) == id && (!Repeats(m) ==> m !in sent)
      && SentOk(cfg, sent + {m}) && NodeOk(cfg, id, nd', sent + {m})
  }

  /** A message that was not backed before the step is new. */
  lemma Sends(cfg: Config, id: NodeId, nd: Node, nd': Node, sent: set<Msg>, m: Msg)
    requires cfg.n >= 1 && SentOk(cfg, sent) && NodeOk(cfg, id, nd, sent) && NodeOk(cfg, id, nd', sent)
    requires Sender(m) == id && MsgOk(cfg, sent, m) && Backed(id, nd', m)
    requires !Repeats(m) ==> !Backed(id, nd, m)
    requires forall w :: Rivals(m, w) ==> Sender(w) == id && !Backed(id, nd, w)
    ensures StepOk(cfg, id, nd', sent, Some(m))
  {
    hide SentOk; hide NodeOk; hide MsgOk; hide Backed; hide Rivals;
    NodeParts(cfg, id, nd, sent);
    SentAdds(cfg, sent, m);
    NodeWaits(cfg, id, nd', sent, m);
  }
}
