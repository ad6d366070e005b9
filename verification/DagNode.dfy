/** One node of the DAG protocol (DAGBigCore): its state and what each handler does to it. */
module DagNode {
  import opened Blocks
  import opened Quorum
  import opened CommitLog
  import Spb
  import Elector

  datatype Config = Config(n: nat, faults: nat, coin: Elector.Coin)

  datatype Msg =
    | ProposeMsg(b: Block)
    | Voting(v: VoteMsg)
    | SpeedVoting(sv: SpeedVoteMsg)
    | ElectMsg(author: NodeId, view: nat)

  function Sender(m: Msg): NodeId {
    match m
    case ProposeMsg(b) => b.author
    case Voting(v) => v.author
    case SpeedVoting(sv) => sv.author
    case ElectMsg(a, _) => a
  }

  /** Index of the two-level maps: a view and a node. */
  datatype Key = Key(view: nat, node: NodeId)

  /** advanceView while it reads the certificates of a layer, one instance at a time: sections of the
      instances may run between two reads. */
  datatype Scan = Scan(view: nat, height: Height, next: nat, refs: seq<BlockQc>)

  /** processCoin between two reads of the leader's instance: `read` is the height of the hash to commit, once
      that is decided. */
  datatype Coin = Coin(view: nat, leader: NodeId, read: Option<Height>)

  datatype Node = Node(
    started: bool,
    view: nat,
    height: Height,
    taken: nat,                       // batches taken from the pool so far
    instances: map<Key, Spb.Instance>,
    store: map<Digest, Block>,
    weakVotes: map<Key, nat>,
    speedVoteNums: map<Key, nat>,     // by view and author
    elector: Elector.State,
    gate: Gate,
    scan: Option<Scan>,
    coin: Option<Coin>,
    callBack: multiset<nat>,          // views of the instances waiting in the callback channel
    got: set<Msg>)                    // history: messages handled

  const INIT := Node(false, 0, H1, 0, map[], map[], map[], map[], Elector.INIT, NEW_GATE, None, None, multiset{}, {})

  function InstanceAt(nd: Node, k: Key): Spb.Instance {
    if k in nd.instances then nd.instances[k] else Spb.Init(Spb.Dag, k.node, k.view)
  }

  function Count(m: map<Key, nat>, k: Key): nat {
    if k in m then m[k] else 0
  }

  /** GetBlockQC */
  function QcAt(nd: Node, k: Key, h: Height): Option<BlockQc> {
    InstanceAt(nd, k).At(h).qc
  }

  // ----- Handlers -----

  /** getReference without interference: the certificates of one layer, by increasing proposer. */
  function References(nd: Node, n: nat, view: nat, h: Height): seq<BlockQc> {
    if n == 0 then []
    else
      var qc := QcAt(nd, Key(view, n - 1), h);
      References(nd, n - 1, view, h) + (if qc.Some? then [qc.value] else [])
  }

  /** Batches leave the pool in order, numbered `id`, `id + n`, `id + 2n`, ...; -1 when none is ready. */
  function BatchId(cfg: Config, id: NodeId, taken: nat, ready: bool): int {
    if ready then id + cfg.n * taken else -1
  }

  function MakeBlock(cfg: Config, id: NodeId, nd: Node, view: nat, h: Height, refs: seq<BlockQc>, ready: bool): Block {
    Block(id, view, h, BatchId(cfg, id, nd.taken, ready), None, refs)
  }

  /** Proposing a block moves the node to the block's position. */
  function Move(nd: Node, view: nat, h: Height, ready: bool): Node {
    nd.(view := view, height := h, taken := if ready then nd.taken + 1 else nd.taken)
  }

  /** The positions a node may move to. */
  predicate IsNext(nd: Node, view: nat, h: Height) {
    (h.H1? && view == nd.view + 1) || (h.H2? && view == nd.view && nd.height.H1?)
  }

  /** advanceView up to the loop of getReference. */
  function Advance(nd: Node, view: nat, h: Height): (nd': Node)
    ensures nd' == nd.(scan := nd'.scan)
  {
    if IsNext(nd, view, h) then nd.(scan := Some(Scan(view, h, 0, []))) else nd
  }

  /** The view whose certificates a block at this position references. */
  function ParentView(view: nat, h: Height): nat {
    if h.H1? && view > 0 then view - 1 else view
  }

  function ParentHeight(h: Height): Height {
    if h.H1? then H2 else H1
  }

  /** One read of the loop, or, after the last one, the rest of advanceView. */
  function ScanStep(cfg: Config, id: NodeId, nd: Node, ready: bool): (Node, Option<Msg>)
    requires nd.scan.Some?
  {
    var sc := nd.scan.value;
    if sc.next < cfg.n then
      var qc := QcAt(nd, Key(ParentView(sc.view, sc.height), sc.next), ParentHeight(sc.height));
      (nd.(scan := Some(sc.(next := sc.next + 1, refs := if qc.Some? then sc.refs + [qc.value] else sc.refs))), None)
    else if |sc.refs| >= High(cfg.n) then
      (Move(nd, sc.view, sc.height, ready).(scan := None),
       Some(ProposeMsg(MakeBlock(cfg, id, nd, sc.view, sc.height, sc.refs, ready))))
    else (nd.(scan := None), None)
  }

  /** addWeakVotes for every reference of a block. */
  function AddWeakVotes(weak: map<Key, nat>, refs: seq<BlockQc>): map<Key, nat> {
    if refs == [] then weak
    else
      var w := AddWeakVotes(weak, refs[..|refs| - 1]);
      var k := Key(refs[|refs| - 1].view, refs[|refs| - 1].proposer);
      w[k := Count(w, k) + 1]
  }

  function OnPropose(nd: Node, b: Block): Node {
    var k := Key(b.view, b.author);
    nd.(store := nd.store[Hash(b) := b],
        weakVotes := if b.height.H2? then AddWeakVotes(nd.weakVotes, b.references) else nd.weakVotes,
        instances := nd.instances[k := Spb.Deliver(InstanceAt(nd, k), Spb.Proposal(b))],
        got := nd.got + {ProposeMsg(b)})
  }

  function OnVote(nd: Node, v: VoteMsg): Node {
    var k := Key(v.view, v.proposer);
    nd.(instances := nd.instances[k := Spb.Deliver(InstanceAt(nd, k), Spb.Vote(v))], got := nd.got + {Voting(v)})
  }

  /** The elect message is sent whenever the node's own count stands at the quorum. */
  function OnSpeedVote(cfg: Config, id: NodeId, nd: Node, sv: SpeedVoteMsg): (Node, Option<Msg>) {
    var k := Key(sv.view, sv.proposer);
    var a := Key(sv.view, sv.author);
    var nums := nd.speedVoteNums[a := Count(nd.speedVoteNums, a) + 1];
    (nd.(speedVoteNums := nums,
         instances := nd.instances[k := Spb.Deliver(InstanceAt(nd, k), Spb.SpeedVote(sv))],
         got := nd.got + {SpeedVoting(sv)}),
     if Count(nums, Key(sv.view, id)) == High(cfg.n) then Some(ElectMsg(id, sv.view)) else None)
  }

  /** Which of the leader's blocks processCoin commits: by speed certificate or by weak votes. */
  function CommitHeight(cfg: Config, nd: Node, leader: NodeId, view: nat): Option<Height> {
    if InstanceAt(nd, Key(view, leader)).fast.isSpeedCert then Some(H2)
    else if Count(nd.weakVotes, Key(view, leader)) >= Low(cfg.n) then Some(H1)
    else None
  }

  /** One section of processCoin: the question for the speed certificate, then the read of the hash.  A hash
      that is not in the store is an error and ends the handler. */
  function CoinStep(cfg: Config, nd: Node): Node
    requires nd.coin.Some?
  {
    var c := nd.coin.value;
    var done := nd.(coin := None);
    match c.read
    case None =>
      (match CommitHeight(cfg, nd, c.leader, c.view)
       case None => Advance(done, c.view + 1, H1)
       case Some(h) => nd.(coin := Some(c.(read := Some(h)))))
    case Some(h) =>
      var d := InstanceAt(nd, Key(c.view, c.leader)).At(h).hash;
      if d in nd.store then Advance(done.(gate := Enqueue(nd.gate, nd.store[d])), c.view + 1, H1) else done
  }

  function OnElect(cfg: Config, nd: Node, author: NodeId, view: nat): Node
    requires cfg.n >= 1
  {
    var (e, verdict) := Elector.AddElect(nd.elector, cfg.n, cfg.coin, author, view);
    var nd' := nd.(elector := e, got := nd.got + {ElectMsg(author, view)});
    if verdict.Leader? then nd'.(coin := Some(Coin(view, verdict.id, None))) else nd'
  }

  function Receive(cfg: Config, id: NodeId, nd: Node, m: Msg): (Node, Option<Msg>)
    requires cfg.n >= 1
  {
    match m
    case ProposeMsg(b) => (OnPropose(nd, b), None)
    case Voting(v) => (OnVote(nd, v), None)
    case SpeedVoting(sv) => OnSpeedVote(cfg, id, nd, sv)
    case ElectMsg(a, view) => (OnElect(cfg, nd, a, view), None)
  }

  /** A section of one of the node's instances runs. */
  function RunTask(cfg: Config, id: NodeId, nd: Node, k: Key, t: Spb.Task): (Node, Option<Msg>)
    requires k in nd.instances && Spb.Pending(nd.instances[k], t)
  {
    var nd' := nd.(instances := nd.instances[k := Spb.Run(nd.instances[k], High(cfg.n), t)]);
    match Spb.Emits(t)
    case None => (nd', None)
    case Some(VoteOut(b)) => (nd', Some(Voting(VoteFor(id, b))))
    case Some(CertOut(_)) => (nd'.(callBack := nd.callBack + multiset{k.view}), None)
    case Some(SpeedOut(qc)) => (nd', Some(SpeedVoting(SpeedVoteFor(id, qc))))
  }

  /** The event loop takes a finished instance from the callback channel. */
  function OnCallBack(nd: Node, view: nat): Node {
    Advance(nd.(callBack := nd.callBack - multiset{view}), view, H2)
  }

  /** The first proposal. */
  function Start(cfg: Config, id: NodeId, nd: Node, ready: bool): (Node, Option<Msg>) {
    (Move(nd, 0, H1, ready).(started := true), Some(ProposeMsg(MakeBlock(cfg, id, nd, 0, H1, [], ready))))
  }

  datatype Event =
    | Begin(ready: bool)
    | Handle(m: Msg)
    | Task(k: Key, t: Spb.Task)
    | CallBack(view: nat)
    | Read(ready: bool)
    | Settle

  /** The event loop handles one message at a time; sections of instances run at any time. */
  predicate Enabled(nd: Node, e: Event) {
    match e
    case Begin(_) => !nd.started
    case Handle(_) => nd.started && nd.scan.None? && nd.coin.None?
    case Task(k, t) => nd.started && k in nd.instances && Spb.Pending(nd.instances[k], t)
    case CallBack(view) => nd.started && nd.scan.None? && nd.coin.None? && view in nd.callBack
    case Read(_) => nd.started && nd.scan.Some?
    case Settle => nd.started && nd.coin.Some?
  }

  function Step(cfg: Config, id: NodeId, nd: Node, e: Event): (Node, Option<Msg>)
    requires cfg.n >= 1 && Enabled(nd, e)
  {
    match e
    case Begin(ready) => Start(cfg, id, nd, ready)
    case Handle(m) => Receive(cfg, id, nd, m)
    case Task(k, t) => RunTask(cfg, id, nd, k, t)
    case CallBack(view) => (OnCallBack(nd, view), None)
    case Read(ready) => ScanStep(cfg, id, nd, ready)
    case Settle => (CoinStep(cfg, nd), None)
  }
}
