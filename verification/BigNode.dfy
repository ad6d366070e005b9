/** One node of the Big protocol (BigCore): its state and what each handler does to it. */
module BigNode {
  import opened Blocks
  import opened Quorum
  import opened CommitLog
  import opened ViewChange
  import Spb
  import Elector

  datatype Config = Config(n: nat, faults: nat, coin: Elector.Coin)

  datatype Report = Report(author: NodeId, view: nat, level: Level, qc: Option<BlockQc>)

  datatype Msg =
    | ProposeMsg(b: Block)
    | Voting(v: VoteMsg)
    | SpeedVoting(sv: SpeedVoteMsg)
    | ElectMsg(author: NodeId, view: nat)
    | ReportMsg(r: Report)

  datatype Key = Key(view: nat, node: NodeId)

  /** How far processCoin has got: each question to the instance takes its lock anew. */
  datatype Stage = AskSpeed | AskDec | ReadHash(h: Height) | AskLevel

  datatype Coin = Coin(view: nat, leader: NodeId, stage: Stage)

  datatype Node = Node(
    started: bool,
    progress: Progress,              // view and reportNums
    taken: nat,
    instances: map<Key, Spb.Instance>,
    store: Store,
    speedVoteNums: map<Key, nat>,    // by view and author
    elector: Elector.State,
    gate: Gate,
    coin: Option<Coin>,              // processCoin under way
    got: set<Msg>)                   // history: the messages handled

  const INIT := Node(false, NO_PROGRESS, 0, map[], map[], map[], Elector.INIT, NEW_GATE, None, {})

  function InstanceAt(nd: Node, k: Key): Spb.Instance {
    if k in nd.instances then nd.instances[k] else Spb.Init(Spb.Big, k.node, k.view)
  }

  function SpeedCount(m: map<Key, nat>, k: Key): nat {
    if k in m then m[k] else 0
  }

  /** The leader that the coin of a view elects. */
  function LeaderOf(cfg: Config, view: nat): Option<NodeId>
    requires cfg.n >= 1
  {
    Elector.LeaderOf(cfg.n, cfg.coin, view)
  }

  // ----- Proposals -----

  function MakeBlock(cfg: Config, id: NodeId, nd: Node, view: nat, h: Height, qc: Option<BlockQc>, ready: bool): Block {
    Block(id, view, h, if ready then id + cfg.n * nd.taken else -1, qc, [])
  }

  function Take(nd: Node, ready: bool): Node {
    nd.(taken := if ready then nd.taken + 1 else nd.taken)
  }

  // ----- Handlers -----

  function Route(nd: Node, k: Key, d: Spb.Delivery): Node {
    nd.(instances := nd.instances[k := Spb.Deliver(InstanceAt(nd, k), d)])
  }

  /** handleProposeMsg */
  function OnProposeMsg(nd: Node, b: Block): Node {
    Route(nd.(store := nd.store[Hash(b) := b]), Key(b.view, b.author), Spb.Proposal(b))
  }

  /** handleVoteMsg */
  function OnVoteMsg(nd: Node, v: VoteMsg): Node {
    Route(nd, Key(v.view, v.proposer), Spb.Vote(v))
  }

  /** handleSpeedVoteMsg: the vote goes to the instance of its author. */
  function OnSpeedMsg(cfg: Config, id: NodeId, nd: Node, sv: SpeedVoteMsg): (Node, Option<Msg>) {
    var a := Key(sv.view, sv.author);
    var nums := nd.speedVoteNums[a := SpeedCount(nd.speedVoteNums, a) + 1];
    (Route(nd.(speedVoteNums := nums), a, Spb.SpeedVote(sv)),
     if SpeedCount(nums, Key(sv.view, id)) == High(cfg.n) then Some(ElectMsg(id, sv.view)) else None)
  }

  /** handleElectMsg, and processCoin up to its first question. */
  function OnElectMsg(cfg: Config, nd: Node, author: NodeId, view: nat): Node
    requires cfg.n >= 1
  {
    var (e, verdict) := Elector.AddElect(nd.elector, cfg.n, cfg.coin, author, view);
    if verdict.Leader? then nd.(elector := e, coin := Some(Coin(view, verdict.id, AskSpeed))) else nd.(elector := e)
  }

  /** handleReportMsg and advanceView: reports of earlier views are counted too. */
  function OnReportMsg(cfg: Config, id: NodeId, nd: Node, r: Report, ready: bool): (Node, Option<Msg>) {
    var (p, advanced) := OnReport(nd.progress, High(cfg.n), false, r.view, r.level);
    var nd' := nd.(progress := p);
    if advanced then (Take(nd', ready), Some(ProposeMsg(MakeBlock(cfg, id, nd, p.view, H1, r.qc, ready))))
    else (nd', None)
  }

  function Receive(cfg: Config, id: NodeId, nd: Node, m: Msg, ready: bool): (Node, Option<Msg>)
    requires cfg.n >= 1
  {
    match m
    case ProposeMsg(b) => (OnProposeMsg(nd, b), None)
    case Voting(v) => (OnVoteMsg(nd, v), None)
    case SpeedVoting(sv) => OnSpeedMsg(cfg, id, nd, sv)
    case ElectMsg(a, view) => (OnElectMsg(cfg, nd, a, view), None)
    case ReportMsg(r) => OnReportMsg(cfg, id, nd, r, ready)
  }

  // ----- processCoin -----

  predicate DecCert(x: Spb.Instance) {
    x.lo.qc.Some? && x.hi.qc.Some?
  }

  /** QCLEvel */
  function MakeReport(id: NodeId, view: nat, x: Spb.Instance): Report {
    if DecCert(x) then Report(id, view, Level2, x.hi.qc)
    else if x.lo.qc.Some? then Report(id, view, Level1, x.lo.qc)
    else Report(id, view, Level0, x.preQc)
  }

  /** One question of processCoin.  A block that is not in the store is an error and ends the handler without a
      report. */
  function CoinStep(id: NodeId, nd: Node): (Node, Option<Msg>)
    requires nd.coin.Some?
  {
    var c := nd.coin.value;
    var x := InstanceAt(nd, Key(c.view, c.leader));
    match c.stage
    case AskSpeed => (nd.(coin := Some(c.(stage := if x.fast.isSpeedCert then ReadHash(H2) else AskDec))), None)
    case AskDec => (nd.(coin := Some(c.(stage := if DecCert(x) then ReadHash(H1) else AskLevel))), None)
    case ReadHash(h) =>
      var d := x.At(h).hash;
      if d in nd.store then (nd.(gate := Enqueue(nd.gate, nd.store[d]), coin := Some(c.(stage := AskLevel))), None)
      else (nd.(coin := None), None)
    case AskLevel => (nd.(coin := None), Some(ReportMsg(MakeReport(id, c.view, x))))
  }

  /** A section of one of the node's instances runs; the node proposes its height-2 block when its own height-1
      certificate is formed. */
  function RunTask(cfg: Config, id: NodeId, nd: Node, k: Key, t: Spb.Task, ready: bool): (Node, Option<Msg>)
    requires k in nd.instances && Spb.Pending(nd.instances[k], t)
  {
    var nd' := nd.(instances := nd.instances[k := Spb.Run(nd.instances[k], High(cfg.n), t)]);
    match Spb.Emits(t)
    case None => (nd', None)
    case Some(VoteOut(b)) => (nd', Some(Voting(VoteFor(id, b))))
    case Some(CertOut(qc)) =>
      if k.node == id then (Take(nd', ready), Some(ProposeMsg(MakeBlock(cfg, id, nd, k.view, H2, Some(qc), ready))))
      else (nd', None)
    case Some(SpeedOut(qc)) => (nd', Some(SpeedVoting(SpeedVoteFor(id, qc))))
  }

  /** The first proposal. */
  function Start(cfg: Config, id: NodeId, nd: Node, ready: bool): (Node, Option<Msg>) {
    (Take(nd.(started := true), ready), Some(ProposeMsg(MakeBlock(cfg, id, nd, nd.progress.view, H1, None, ready))))
  }

  /** The core handles one message at a time; sections of instances run in between and while it asks them. */
  datatype Event = Begin(ready: bool) | Handle(m: Msg, ready: bool) | Settle | Task(k: Key, t: Spb.Task, ready: bool)

  predicate Enabled(nd: Node, e: Event) {
    match e
    case Begin(_) => !nd.started
    case Handle(_, _) => nd.started && nd.coin.None?
    case Settle => nd.started && nd.coin.Some?
    case Task(k, t, _) => nd.started && k in nd.instances && Spb.Pending(nd.instances[k], t)
  }

  function Step(cfg: Config, id: NodeId, nd: Node, e: Event): (Node, Option<Msg>)
    requires cfg.n >= 1 && Enabled(nd, e)
  {
    match e
    case Begin(ready) => Start(cfg, id, nd, ready)
    case Handle(m, ready) => var (nd', out) := Receive(cfg, id, nd, m, ready); (nd'.(got := nd.got + {m}), out)
    case Settle => CoinStep(id, nd)
    case Task(k, t, ready) => RunTask(cfg, id, nd, k, t, ready)
  }
}
