/** One node of the lean protocol (Core): its state and what each handler does to it. */
module LeanNode {
  import opened Blocks
  import opened Quorum
  import opened CommitLog
  import opened LeanSpb
  import opened ViewChange
  import Elector

  datatype Config = Config(n: nat, faults: nat, coin: Elector.Coin)

  datatype Msg =
    | ProposeMsg(b: Block)
    | VoteOf(v: VoteMsg)
    | FinOf(fv: FinVote)
    | SpeedOf(sv: SpeedVoteMsg)
    | ElectMsg(author: NodeId, view: nat)
    | CoinMsg(leader: NodeId, author: NodeId, view: nat)
    | ReportMsg(r: Report)

  datatype Report = Report(author: NodeId, view: nat, level: Level, qc: Option<BlockQc>)

  datatype Key = Key(view: nat, node: NodeId)

  /** How far processCoin has got: each question to the instance takes its lock anew. */
  datatype Stage = AskSpeed | AskDec | ReadHash(h: Height) | AskLevel

  datatype Coin = Coin(view: nat, leader: NodeId, stage: Stage)

  datatype Node = Node(
    started: bool,
    progress: Progress,   // view and reportNums
    taken: nat,
    instances: map<Key, Instance>,
    store: map<Digest, Block>,
    elector: Elector.State,
    gate: Gate,
    coinViews: set<nat>,
    finVotes: map<nat, set<NodeId>>,
    coin: Option<Coin>,   // processCoin under way
    got: set<Msg>)        // history: the messages handled

  const INIT := Node(false, NO_PROGRESS, 0, map[], map[], Elector.INIT, NEW_GATE, {}, map[], None, {})

  function InstanceAt(nd: Node, k: Key): Instance {
    if k in nd.instances then nd.instances[k] else Init(k.node, k.view)
  }

  function FinVotesAt(nd: Node, view: nat): set<NodeId> {
    if view in nd.finVotes then nd.finVotes[view] else {}
  }

  /** The leader that the coin of a view elects. */
  function LeaderOf(cfg: Config, view: nat): Option<NodeId>
    requires cfg.n >= 1
  {
    Elector.LeaderOf(cfg.n, cfg.coin, view)
  }

  // ----- Proposals -----

  function MakeBlock(cfg: Config, id: NodeId, nd: Node, view: nat, h: Height, qc: Option<BlockQc>, ready: bool): Block {
    Block(id, view, h, if ready then id + cfg.n * nd.taken else -1, qc, [])
  }

  function Take(nd: Node, ready: bool): Node {
    nd.(taken := if ready then nd.taken + 1 else nd.taken)
  }

  // ----- Handlers -----

  function Route(nd: Node, k: Key, d: Delivery): Node {
    nd.(instances := nd.instances[k := Deliver(InstanceAt(nd, k), d)])
  }

  /** handleProposeMsg: the block is stored even if its view is over. */
  function OnProposeMsg(nd: Node, b: Block): Node {
    var nd' := nd.(store := nd.store[Hash(b) := b]);
    if b.view < nd.progress.view then nd' else Route(nd', Key(b.view, b.author), Proposal(b))
  }

  /** handleVoteMsg */
  function OnVoteMsg(nd: Node, v: VoteMsg): Node {
    if v.view < nd.progress.view then nd else Route(nd, Key(v.view, v.proposer), Vote(v))
  }

  /** handleFinVoteMsg */
  function OnFinMsg(cfg: Config, id: NodeId, nd: Node, fv: FinVote): (Node, Option<Msg>) {
    if fv.view < nd.progress.view then (nd, None)
    else
      var authors := FinVotesAt(nd, fv.view) + {fv.author};
      (Route(nd.(finVotes := nd.finVotes[fv.view := authors]), Key(fv.view, fv.author), Fin(fv)),
       if |authors| == High(cfg.n) then Some(ElectMsg(id, fv.view)) else None)
  }

  /** handleSpeedVoteMsg */
  function OnSpeedMsg(nd: Node, sv: SpeedVoteMsg): Node {
    if sv.view < nd.progress.view then nd else Route(nd, Key(sv.view, sv.proposer), SpeedVote(sv))
  }

  /** handleCoinMsg, and processCoin up to its first question. */
  function OnCoinMsg(nd: Node, leader: NodeId, view: nat): Node {
    if view in nd.coinViews then nd else nd.(coin := Some(Coin(view, leader, AskSpeed)))
  }

  /** handleElectMsg */
  function OnElectMsg(cfg: Config, id: NodeId, nd: Node, author: NodeId, view: nat): (Node, Option<Msg>)
    requires cfg.n >= 1
  {
    if view < nd.progress.view then (nd, None)
    else
      var (e, verdict) := Elector.AddElect(nd.elector, cfg.n, cfg.coin, author, view);
      var nd' := nd.(elector := e);
      if verdict.Leader? then (OnCoinMsg(nd', verdict.id, view), Some(CoinMsg(verdict.id, id, view)))
      else (nd', None)
  }

  /** handleReportMsg and advanceView */
  function OnReportMsg(cfg: Config, id: NodeId, nd: Node, r: Report, ready: bool): (Node, Option<Msg>) {
    var (p, advanced) := OnReport(nd.progress, High(cfg.n), true, r.view, r.level);
    var nd' := nd.(progress := p);
    if advanced then (Take(nd', ready), Some(ProposeMsg(MakeBlock(cfg, id, nd, p.view, H1, r.qc, ready))))
    else (nd', None)
  }

  function Receive(cfg: Config, id: NodeId, nd: Node, m: Msg, ready: bool): (Node, Option<Msg>)
    requires cfg.n >= 1
  {
    match m
    case ProposeMsg(b) => (OnProposeMsg(nd, b), None)
    case VoteOf(v) => (OnVoteMsg(nd, v), None)
    case FinOf(fv) => OnFinMsg(cfg, id, nd, fv)
    case SpeedOf(sv) => (OnSpeedMsg(nd, sv), None)
    case ElectMsg(a, view) => OnElectMsg(cfg, id, nd, a, view)
    case CoinMsg(leader, _, view) => (OnCoinMsg(nd, leader, view), None)
    case ReportMsg(r) => OnReportMsg(cfg, id, nd, r, ready)
  }

  // ----- processCoin -----

  function MakeReport(id: NodeId, view: nat, x: Instance): Report {
    Report(id, view, LevelOf(x), LevelQc(x))
  }

  /** One question of processCoin.  A block that is not in the store is an error and ends the handler without a
      report. */
  function CoinStep(id: NodeId, nd: Node): (Node, Option<Msg>)
    requires nd.coin.Some?
  {
    var c := nd.coin.value;
    var x := InstanceAt(nd, Key(c.view, c.leader));
    match c.stage
    case AskSpeed => (nd.(coin := Some(c.(stage := if x.fast.isSpeedCert then ReadHash(H2) else AskDec))), None)
    case AskDec => (nd.(coin := Some(c.(stage := if DecCert(x) then ReadHash(H1) else AskLevel))), None)
    case ReadHash(h) =>
      var d := x.At(h).hash;
      if d in nd.store then (nd.(gate := Enqueue(nd.gate, nd.store[d]), coin := Some(c.(stage := AskLevel))), None)
      else (nd.(coin := None), None)
    case AskLevel =>
      (nd.(coin := None, coinViews := nd.coinViews + {c.view}), Some(ReportMsg(MakeReport(id, c.view, x))))
  }

  /** A section of one of the node's instances runs. */
  function RunTask(cfg: Config, id: NodeId, nd: Node, k: Key, t: Task, ready: bool): (Node, Option<Msg>)
    requires k in nd.instances && Pending(nd.instances[k], t)
  {
    var nd' := nd.(instances := nd.instances[k := Run(nd.instances[k], High(cfg.n), t)]);
    match t
    case SendVote(b) => (nd', Some(VoteOf(VoteFor(id, b))))
    case SendSpeed(fv) => (nd', Some(SpeedOf(SpeedVoteFor(id, fv.qc))))
    case Certify(qc) =>
      if qc.height.H1? then (Take(nd', ready), Some(ProposeMsg(MakeBlock(cfg, id, nd, k.view, H2, Some(qc), ready))))
      else (nd', Some(FinOf(FinVote(id, k.view, qc))))
    case _ => (nd', None)
  }

  /** The first proposal. */
  function Start(cfg: Config, id: NodeId, nd: Node, ready: bool): (Node, Option<Msg>) {
    (Take(nd.(started := true), ready), Some(ProposeMsg(MakeBlock(cfg, id, nd, nd.progress.view, H1, None, ready))))
  }

  /** The core handles one message at a time; sections of instances run in between and while it asks them. */
  datatype Event = Begin(ready: bool) | Handle(m: Msg, ready: bool) | Settle | DoTask(k: Key, t: Task, ready: bool)

  predicate Enabled(nd: Node, e: Event) {
    match e
    case Begin(_) => !nd.started
    case Handle(_, _) => nd.started && nd.coin.None?
    case Settle => nd.started && nd.coin.Some?
    case DoTask(k, t, _) => nd.started && k in nd.instances && Pending(nd.instances[k], t)
  }

  function Step(cfg: Config, id: NodeId, nd: Node, e: Event): (Node, Option<Msg>)
    requires cfg.n >= 1 && Enabled(nd, e)
  {
    match e
    case Begin(ready) => Start(cfg, id, nd, ready)
    case Handle(m, ready) => var (nd', out) := Receive(cfg, id, nd, m, ready); (nd'.(got := nd.got + {m}), out)
    case Settle => CoinStep(id, nd)
    case DoTask(k, t, ready) => RunTask(cfg, id, nd, k, t, ready)
  }
}
