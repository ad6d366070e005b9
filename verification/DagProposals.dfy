/** The events that move a node: reading the certificates of a layer and proposing a block. */
module DagProposals {
  import opened Blocks
  import opened Quorum
  import opened CommitLog
  import opened DagNode
  import opened DagInvariant
  import opened DagFrame
  import opened DagEvents
  import Spb
  import SpbInvariant
  import opened SpbGrowth
  import Elector

  // ----- A certificate held is a certificate -----

  /** The votes behind a certificate a node holds were sent by as many distinct nodes. */
  lemma CountedVoters(cfg: Config, k: Key, s: Spb.Slot, got: set<Msg>, sent: set<Msg>, qc: BlockQc, b: Block)
    requires qc == BlockQc(k.view, b.height, k.node, Hash(b)) && Key(b.view, b.author) == k
    requires forall v :: v in s.counted ==> v == VoteFor(v.author, b)
    requires forall v :: s.counted[v] <= s.votes[v]
    requires forall v: VoteMsg :: Key(v.view, v.proposer) == k && v.height == b.height ==>
      s.votes[v] == if Voting(v) in got then 1 else 0
    requires got <= sent && (forall m :: m in sent ==> Sender(m) < cfg.n)
    ensures |Voters(cfg.n, sent, qc)| >= |s.counted|
  {
    hide Hash;
    forall v ensures s.counted[v] <= 1 {
      assert v in s.counted ==> v == VoteFor(v.author, b);
    }
    var author := (v: VoteMsg) => v.author;
    AuthorsSize(s.counted, author);
    var authors := Authors(s.counted, author);
    forall a | a in authors ensures a in Voters(cfg.n, sent, qc) {
      var v :| v in s.counted && author(v) == a;
      assert s.votes[v] > 0;
      assert Voting(v) in got;
      assert Sender(Voting(v)) < cfg.n;
    }
    SubsetSize(authors, Voters(cfg.n, sent, qc));
  }

  /** Every certificate a node holds names a block the node has received, voted for by a quorum. */
  lemma HeldIsCertified(cfg: Config, nd: Node, sent: set<Msg>, k: Key, h: Height) returns (b: Block)
    requires InstancesOk(cfg, nd) && HistoryOk(nd) && nd.got <= sent && SentOk(cfg, sent)
    requires QcAt(nd, k, h).Some?
    ensures var qc := QcAt(nd, k, h).value;
      && qc == BlockQc(k.view, h, k.node, Hash(b)) && Certified(cfg, sent, qc)
    ensures ProposeMsg(b) in nd.got && Names(sent, QcAt(nd, k, h).value, b)
    ensures InstanceAt(nd, k).At(h).hash == Hash(b) && k.node < cfg.n
  {
    hide InstancesOk; hide HistoryOk; hide SpbInvariant.Inv; hide InstanceAt; hide Hash; hide RefsOk;
    hide OnePerPosition;
    KeyParts(cfg, nd, k);
    var x := InstanceAt(nd, k);
    var s := x.At(h);
    QcMeans(x, s, h, High(cfg.n));
    b := s.proposal.value;
    assert ProposeMsg(b) in nd.got by { hide VoteHistory; hide SpeedHistory; }
    assert Sender(ProposeMsg(b)) < cfg.n;
    CountedVoters(cfg, k, s, nd.got, sent, s.qc.value, b);
    assert Names(sent, s.qc.value, b);
  }

  // ----- Reading one certificate -----

  /** A node that only changes its scan, its coin, its gate, its batch count and its position. */
  lemma MoveFrame(cfg: Config, id: NodeId, nd: Node, nd': Node, sent: set<Msg>)
    requires NodeOk(cfg, id, nd, sent)
    requires nd' == nd.(started := nd'.started, view := nd'.view, height := nd'.height, taken := nd'.taken,
                        scan := nd'.scan, coin := nd'.coin, gate := nd'.gate, callBack := nd'.callBack)
    requires (nd.started ==> nd'.started) && Layer(nd.view, nd.height) <= Layer(nd'.view, nd'.height)
    requires ScanOk(cfg, nd') && CoinOk(cfg, nd') && (nd'.gate == nd.gate || StoreOk(nd'))
    ensures NodeOk(cfg, id, nd', sent) && NodeGrows(nd, nd')
  {
    MoveInstances(cfg, nd, nd');
    hide InstancesOk; hide HistoryOk; hide VotesSentOk; hide ElectsSentOk; hide BlocksSentOk; hide ScanOk;
    hide WeakVotesOk; hide SpeedNumsOk; hide ElectorOk; hide StoreOk; hide CoinOk; hide NodeGrows;
    GrowthKeepsSent(cfg, id, nd, nd', sent);
    SameCounters(cfg, nd, nd');
    ElectorFrame(cfg, nd, nd');
    if nd'.gate == nd.gate {
      StoreSame(nd, nd');
    }
  }

  lemma MoveInstances(cfg: Config, nd: Node, nd': Node)
    requires InstancesOk(cfg, nd) && HistoryOk(nd)
    requires nd'.instances == nd.instances && nd'.got == nd.got
    requires (nd.started ==> nd'.started) && Layer(nd.view, nd.height) <= Layer(nd'.view, nd'.height)
    ensures InstancesOk(cfg, nd') && HistoryOk(nd') && NodeGrows(nd, nd')
  {
    hide InstanceOk; hide KeyHistory;
    forall c: Key ensures InstanceAt(nd', c) == InstanceAt(nd, c) { }
    forall c: Key ensures InstanceOk(cfg, c, InstanceAt(nd', c)) && KeyHistory(c, InstanceAt(nd', c), nd'.got) {
      KeyParts(cfg, nd, c);
    }
  }

  /** The certificate read next extends the references in order. */
  lemma ReadExtends(nd: Node, view: nat, h: Height, next: nat, refs: seq<BlockQc>, q: BlockQc)
    requires ReadOk(nd, view, h, next, refs) && q.proposer == next && Holds(nd, q)
    requires Layer(q.view, q.height) + 1 == Layer(view, h)
    ensures ReadOk(nd, view, h, next + 1, refs + [q])
  {
    hide Holds;
    forall i | 0 <= i < |refs| ensures refs[i].proposer < next {
      assert refs[i] in refs;
    }
  }

  lemma ReadSame(nd: Node, nd': Node, view: nat, h: Height, next: nat, next': nat, refs: seq<BlockQc>)
    requires ReadOk(nd, view, h, next, refs) && nd'.instances == nd.instances && next <= next'
    ensures ReadOk(nd', view, h, next', refs)
  {
    forall q ensures Holds(nd', q) == Holds(nd, q) { }
    hide Holds;
  }

  lemma ReadOne(cfg: Config, nd: Node, nd': Node, sc: Scan)
    requires InstancesOk(cfg, nd) && ScanOk(cfg, nd) && nd.started && nd.scan == Some(sc) && sc.next < cfg.n
    requires var qc := QcAt(nd, Key(ParentView(sc.view, sc.height), sc.next), ParentHeight(sc.height));
      nd' == nd.(scan := Some(sc.(next := sc.next + 1, refs := if qc.Some? then sc.refs + [qc.value] else sc.refs)))
    ensures ScanOk(cfg, nd')
  {
    hide InstancesOk; hide ReadOk; hide InstanceAt;
    var k := Key(ParentView(sc.view, sc.height), sc.next);
    var h := ParentHeight(sc.height);
    var qc := QcAt(nd, k, h);
    if qc.Some? {
      HeldPosition(cfg, nd, k, h);
      ReadExtends(nd, sc.view, sc.height, sc.next, sc.refs, qc.value);
      ReadSame(nd, nd', sc.view, sc.height, sc.next + 1, sc.next + 1, sc.refs + [qc.value]);
    } else {
      ReadSame(nd, nd', sc.view, sc.height, sc.next, sc.next + 1, sc.refs);
    }
  }

  lemma HeldPosition(cfg: Config, nd: Node, k: Key, h: Height)
    requires InstancesOk(cfg, nd) && QcAt(nd, k, h).Some?
    ensures var q := QcAt(nd, k, h).value; q.view == k.view && q.proposer == k.node && q.height == h
  {
    assert InstanceOk(cfg, k, InstanceAt(nd, k));
    hide InstancesOk; hide SpbInvariant.Inv;
    QcMeans(InstanceAt(nd, k), InstanceAt(nd, k).At(h), h, High(cfg.n));
  }

  // ----- Proposing -----

  lemma HeldRefs(cfg: Config, nd: Node, sent: set<Msg>, b: Block)
    requires InstancesOk(cfg, nd) && HistoryOk(nd) && nd.got <= sent && SentOk(cfg, sent)
    requires !(b.view == 0 && b.height.H1?)
    requires |b.references| >= High(cfg.n) && Increasing(b.references)
    requires forall q :: q in b.references ==>
      q.proposer < cfg.n && Holds(nd, q) && Layer(q.view, q.height) + 1 == Layer(b.view, b.height)
    ensures RefsOk(cfg, sent, b)
  {
    hide InstancesOk; hide HistoryOk; hide SentOk; hide Certified;
    forall q | q in b.references ensures Certified(cfg, sent, q) {
      var c := HeldIsCertified(cfg, nd, sent, Key(q.view, q.proposer), q.height);
    }
  }

  lemma NewBlock(id: NodeId, nd: Node, nd': Node, sent: set<Msg>, b: Block)
    requires BlocksSentOk(id, nd', sent) && b.author == id && nd'.started
    requires Layer(b.view, b.height) == Layer(nd'.view, nd'.height)
    requires forall q :: q in b.references ==> Holds(nd', q)
    ensures BlocksSentOk(id, nd', sent + {ProposeMsg(b)})
  {
    hide Holds;
  }

  /** Proposing a block above everything the node proposed before. */
  lemma ProposeStep(cfg: Config, id: NodeId, nd: Node, nd': Node, sent: set<Msg>, b: Block)
    requires NodeOk(cfg, id, nd, sent) && NodeOk(cfg, id, nd', sent) && NodeGrows(nd, nd') && SentOk(cfg, sent)
    requires id < cfg.n && b.author == id && nd'.started && Layer(b.view, b.height) == Layer(nd'.view, nd'.height)
    requires nd.started ==> Layer(nd.view, nd.height) < Layer(b.view, b.height)
    requires RefsOk(cfg, sent, b) && forall q :: q in b.references ==> Holds(nd, q)
    ensures StepOk(cfg, id, nd', sent, Some(ProposeMsg(b)))
  {
    hide InstancesOk; hide HistoryOk; hide VotesSentOk; hide ElectsSentOk; hide ScanOk; hide SentOk; hide RefsOk;
    hide WeakVotesOk; hide SpeedNumsOk; hide ElectorOk; hide StoreOk; hide CoinOk; hide NodeGrows; hide Holds;
    var m := ProposeMsg(b);
    forall c | ProposeMsg(c) in sent ensures !SamePosition(b, c) { }
    forall q | q in b.references ensures Holds(nd', q) {
      HoldsGrows(nd, nd', q);
    }
    NewBlock(id, nd, nd', sent, b);
    hide BlocksSentOk;
    assert m !in sent by { assert SamePosition(b, b); }
    SendBlockKeeps(cfg, sent, b);
    VotesSentFrame(id, nd', sent, sent + {m});
    ElectsSentFrame(cfg, id, nd', sent, sent + {m});
  }

  lemma ReadStep(cfg: Config, id: NodeId, nd: Node, sent: set<Msg>, ready: bool)
    requires NodeOk(cfg, id, nd, sent) && SentOk(cfg, sent) && id < cfg.n && nd.started && nd.scan.Some?
    ensures StepOk(cfg, id, ScanStep(cfg, id, nd, ready).0, sent, ScanStep(cfg, id, nd, ready).1)
  {
    hide NodeOk; hide SentOk; hide NodeGrows; hide InstancesOk; hide ScanOk; hide QcAt;
    var sc := nd.scan.value;
    var nd' := ScanStep(cfg, id, nd, ready).0;
    NodeParts(cfg, id, nd, sent);
    NoCoin(cfg, nd');
    if sc.next < cfg.n {
      ReadOne(cfg, nd, nd', sc);
      MoveFrame(cfg, id, nd, nd', sent);
    } else if |sc.refs| >= High(cfg.n) {
      ScanDone(cfg, id, nd, nd', sent, ready);
    } else {
      NoScan(cfg, nd');
      MoveFrame(cfg, id, nd, nd', sent);
    }
  }

  lemma NodeParts(cfg: Config, id: NodeId, nd: Node, sent: set<Msg>)
    requires NodeOk(cfg, id, nd, sent)
    ensures InstancesOk(cfg, nd) && HistoryOk(nd) && ScanOk(cfg, nd) && CoinOk(cfg, nd) && nd.got <= sent
  {
    hide InstancesOk; hide HistoryOk; hide ScanOk; hide VotesSentOk; hide ElectsSentOk; hide BlocksSentOk;
    hide WeakVotesOk; hide SpeedNumsOk; hide ElectorOk; hide StoreOk; hide CoinOk;
  }

  lemma ScanDone(cfg: Config, id: NodeId, nd: Node, nd': Node, sent: set<Msg>, ready: bool)
    requires NodeOk(cfg, id, nd, sent) && SentOk(cfg, sent) && id < cfg.n && nd.started && nd.scan.Some?
    requires nd.scan.value.next >= cfg.n && |nd.scan.value.refs| >= High(cfg.n) && nd' == ScanStep(cfg, id, nd, ready).0
    ensures StepOk(cfg, id, nd', sent, ScanStep(cfg, id, nd, ready).1)
  {
    var sc := nd.scan.value;
    var b := MakeBlock(cfg, id, nd, sc.view, sc.height, sc.refs, ready);
    assert IsNext(nd, sc.view, sc.height) && Increasing(sc.refs);
    hide InstancesOk; hide HistoryOk; hide VotesSentOk; hide ElectsSentOk; hide SentOk; hide RefsOk; hide BlocksSentOk;
    hide WeakVotesOk; hide SpeedNumsOk; hide ElectorOk; hide StoreOk; hide CoinOk; hide NodeGrows; hide Holds;
    hide Increasing;
    HeldRefs(cfg, nd, sent, b);
    NoScan(cfg, nd');
    assert nd.coin.None?;
    NoCoin(cfg, nd');
    hide ScanOk;
    MoveFrame(cfg, id, nd, nd', sent);
    hide NodeOk;
    ProposeStep(cfg, id, nd, nd', sent, b);
  }

  lemma BeginStep(cfg: Config, id: NodeId, nd: Node, sent: set<Msg>, ready: bool)
    requires NodeOk(cfg, id, nd, sent) && SentOk(cfg, sent) && id < cfg.n && !nd.started
    ensures StepOk(cfg, id, Start(cfg, id, nd, ready).0, sent, Start(cfg, id, nd, ready).1)
  {
    hide NodeOk; hide SentOk; hide NodeGrows; hide InstancesOk; hide HistoryOk;
    var nd' := Start(cfg, id, nd, ready).0;
    var b := MakeBlock(cfg, id, nd, 0, H1, [], ready);
    NodeParts(cfg, id, nd, sent);
    NoScan(cfg, nd');
    NoCoin(cfg, nd');
    hide ScanOk;
    MoveFrame(cfg, id, nd, nd', sent);
    ProposeStep(cfg, id, nd, nd', sent, b);
  }

  lemma CallBackStep(cfg: Config, id: NodeId, nd: Node, nd': Node, sent: set<Msg>, view: nat)
    requires NodeOk(cfg, id, nd, sent) && nd.started && nd.scan.None? && nd.coin.None? && nd' == OnCallBack(nd, view)
    ensures NodeOk(cfg, id, nd', sent)
  {
    hide NodeOk; hide Advance; hide NodeGrows; hide ScanOk;
    AdvanceEffect(cfg, nd.(callBack := nd.callBack - multiset{view}), nd', view, H2);
    NoCoin(cfg, nd');
    MoveFrame(cfg, id, nd, nd', sent);
  }

  // ----- The coin -----

  /** processCoin asks for the speed certificate. */
  lemma AskStep(cfg: Config, id: NodeId, nd: Node, nd': Node, sent: set<Msg>)
    requires NodeOk(cfg, id, nd, sent) && nd.started && nd.coin.Some? && nd.coin.value.read.None?
    requires nd' == CoinStep(cfg, nd)
    ensures NodeOk(cfg, id, nd', sent)
  {
    hide NodeOk; hide Advance; hide NodeGrows; hide InstancesOk; hide HistoryOk; hide ScanOk; hide Elector.LeaderOf;
    NodeParts(cfg, id, nd, sent);
    var c := nd.coin.value;
    if CommitHeight(cfg, nd, c.leader, c.view).None? {
      AdvanceEffect(cfg, nd.(coin := None), nd', c.view + 1, H1);
      NoCoin(cfg, nd');
    } else {
      NoScan(cfg, nd');
      AskedCoin(cfg, nd, nd');
    }
    hide CoinOk; hide CommitHeight;
    MoveFrame(cfg, id, nd, nd', sent);
  }

  lemma AskedCoin(cfg: Config, nd: Node, nd': Node)
    requires CoinOk(cfg, nd) && nd.coin.Some?
    requires var c := nd.coin.value;
      nd' == nd.(coin := Some(c.(read := CommitHeight(cfg, nd, c.leader, c.view))))
    ensures CoinOk(cfg, nd')
  {
    hide Elector.LeaderOf;
  }

  /** processCoin reads the hash and commits. */
  lemma ReadHashStep(cfg: Config, id: NodeId, nd: Node, nd': Node, sent: set<Msg>)
    requires NodeOk(cfg, id, nd, sent) && nd.started && nd.coin.Some? && nd.coin.value.read.Some?
    requires nd' == CoinStep(cfg, nd)
    ensures NodeOk(cfg, id, nd', sent)
  {
    hide NodeOk; hide Advance; hide NodeGrows; hide Enqueue; hide StoreOk; hide InstanceAt; hide InstancesOk;
    hide HistoryOk;
    hide ScanOk; hide BlocksSentOk; hide Elector.LeaderOf;
    NodeParts(cfg, id, nd, sent);
    StoreOfNode(cfg, id, nd, sent);
    var c := nd.coin.value;
    var d := InstanceAt(nd, Key(c.view, c.leader)).At(c.read.value).hash;
    if d in nd.store {
      var mid := nd.(coin := None, gate := Enqueue(nd.gate, nd.store[d]));
      EnqueueStore(nd, mid, d);
      AdvanceEffect(cfg, mid, nd', c.view + 1, H1);
      StoreSame(mid, nd');
    } else {
      NoScan(cfg, nd');
    }
    hide CoinOk;
    NoCoin(cfg, nd');
    MoveFrame(cfg, id, nd, nd', sent);
  }

  lemma SettleStep(cfg: Config, id: NodeId, nd: Node, nd': Node, sent: set<Msg>)
    requires NodeOk(cfg, id, nd, sent) && nd.started && nd.coin.Some? && nd' == CoinStep(cfg, nd)
    ensures NodeOk(cfg, id, nd', sent)
  {
    hide NodeOk; hide CoinStep;
    if nd.coin.value.read.None? {
      AskStep(cfg, id, nd, nd', sent);
    } else {
      ReadHashStep(cfg, id, nd, nd', sent);
    }
  }

  lemma StoreOfNode(cfg: Config, id: NodeId, nd: Node, sent: set<Msg>)
    requires NodeOk(cfg, id, nd, sent)
    ensures StoreOk(nd) && BlocksSentOk(id, nd, sent)
  {
    hide InstancesOk; hide HistoryOk; hide VotesSentOk; hide ElectsSentOk; hide ScanOk; hide BlocksSentOk;
    hide WeakVotesOk; hide SpeedNumsOk; hide ElectorOk; hide StoreOk; hide CoinOk;
  }
}
