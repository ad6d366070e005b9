/**
  The lean protocol as objects: the fields of SPB and Core, updated in place.  Each method of the instance is
  one mutex-protected section or one atomic operation, and one step of `LeanSpb`; each handler of the core is a
  step of `LeanNode`, with processCoin run to its end.  The core owns its instances, elector, commitor gate and
  report counters.
 */
module LeanObject {
  import opened Blocks
  import opened Quorum
  import opened CommitLog
  import opened LeanSpb
  import opened ViewChange
  import LN = LeanNode
  import Elector

  // ----- SPB -----

  lemma RunsCount(x: Instance, high: nat, v: VoteMsg)
    requires Pending(x, CountVote(v))
    ensures var y := Run(x, high, CountVote(v)); var s := x.At(v.height); var s' := y.At(v.height);
      && y == x.With(v.height, s')
      && s'.hash == s.hash && s'.qc == s.qc && s'.voteNums == s.voteNums + 1
      && s'.certify ==
           if s'.voteNums == high then s.certify + multiset{BlockQc(x.view, v.height, v.proposer, v.hash)}
             else s.certify
  {
  }

  class Spb {
    const proposer: NodeId
    const view: nat
    const high: nat

    var preQc: Option<BlockQc>
    const blockHash: array<Digest>
    const blockQcs: array<Option<BlockQc>>
    var unHandlePropose: seq<Block>
    var unHandleFinVote: seq<FinVote>
    const voteNums: array<int>
    var speedVoteNums: nat
    var isSpeedCert: bool

    ghost var model: Instance

    ghost function Repr(): set<object> {
      {this, blockHash, blockQcs, voteNums}
    }

    ghost predicate Valid()
      reads Repr()
    {
      && blockHash.Length == 2 && blockQcs.Length == 2 && voteNums.Length == 2
      && model.proposer == proposer && model.view == view && model.preQc == preQc
      && model.lo.hash == blockHash[0] && model.hi.hash == blockHash[1]
      && model.lo.qc == blockQcs[0] && model.hi.qc == blockQcs[1]
      && model.unHandlePropose == unHandlePropose && model.end.unHandleFinVote == unHandleFinVote
      && model.lo.voteNums == voteNums[0] && model.hi.voteNums == voteNums[1]
      && model.fast.speedVoteNums == speedVoteNums && model.fast.isSpeedCert == isSpeedCert
    }

    constructor (proposer: NodeId, view: nat, high: nat)
      ensures Valid() && model == Init(proposer, view) && fresh(Repr())
      ensures this.proposer == proposer && this.view == view && this.high == high
    {
      this.proposer, this.view, this.high := proposer, view, high;
      preQc, unHandlePropose, unHandleFinVote, speedVoteNums, isSpeedCert := None, [], [], 0, false;
      blockHash := new Digest[2](_ => ZERO);
      blockQcs := new Option<BlockQc>[2](_ => None);
      voteNums := new int[2](_ => 0);
      model := Init(proposer, view);
    }

    /** `go` with one of the process methods: the goroutine is pending. */
    method Start(d: Delivery)
      requires Valid()
      modifies this`model
      ensures Valid() && model == Deliver(old(model), d)
    {
      model := Deliver(model, d);
    }

    /** processProposeMsg, the section under hMutex; `accepted` unless the proposal was put aside. */
    method AcceptProposal(b: Block) returns (accepted: bool)
      requires Valid() && Pending(model, OnPropose(b))
      modifies this`preQc, this`unHandlePropose, this`model, blockHash, blockQcs
      ensures Valid() && model == Run(old(model), high, OnPropose(b))
      ensures accepted == (b in model.At(b.height).replay - old(model).At(b.height).replay)
    {
      model := Run(model, high, OnPropose(b));
      if b.height.H1? {
        preQc := b.qc;
        blockHash[0] := Hash(b);
        return true;
      }
      if blockHash[0] != ParentHash(b) {
        unHandlePropose := unHandlePropose + [b];
        return false;
      }
      blockQcs[0] := b.qc;
      blockHash[1] := Hash(b);
      return true;
    }

    /** processProposeMsg, the section under uMutex: what was put aside is started again. */
    method Replay(b: Block) returns (proposals: seq<Block>, finVotes: seq<FinVote>)
      requires Valid() && Pending(model, LeanSpb.Replay(b))
      modifies this`model
      ensures Valid() && model == Run(old(model), high, LeanSpb.Replay(b))
      ensures model.hi.onPropose == old(model).hi.onPropose + multiset(proposals)
      ensures model.end.onFin == old(model).end.onFin + multiset(finVotes)
    {
      model := Run(model, high, LeanSpb.Replay(b));
      proposals, finVotes := [], [];
      if b.height.H1? {
        for i := 0 to |unHandlePropose|
          invariant proposals == unHandlePropose[..i]
        {
          proposals := proposals + [unHandlePropose[i]];
        }
        assert proposals == unHandlePropose;
      } else {
        for i := 0 to |unHandleFinVote|
          invariant finVotes == unHandleFinVote[..i]
        {
          finVotes := finVotes + [unHandleFinVote[i]];
        }
        assert finVotes == unHandleFinVote;
      }
    }

    /** processFinVoteMsg, the filter and the section under hMutex. */
    method AcceptFinVote(fv: FinVote) returns (accepted: bool)
      requires Valid() && Pending(model, OnFin(fv))
      modifies this`unHandleFinVote, this`model, blockQcs
      ensures Valid() && model == Run(old(model), high, OnFin(fv))
      ensures accepted == (fv in model.end.sendSpeed - old(model).end.sendSpeed)
    {
      model := Run(model, high, OnFin(fv));
      if fv.author != proposer || fv.view != view {
        return false;
      }
      if blockHash[1] != fv.qc.hash {
        unHandleFinVote := unHandleFinVote + [fv];
        return false;
      }
      blockQcs[1] := Some(fv.qc);
      return true;
    }

    /** processVoteMsg: the vote that completes the quorum forms the certificate. */
    method CountVote(v: VoteMsg) returns (qc: Option<BlockQc>)
      requires Valid() && Pending(model, LeanSpb.CountVote(v))
      modifies this`model, voteNums
      ensures Valid() && model == Run(old(model), high, LeanSpb.CountVote(v))
      ensures var was := old(model).At(v.height).certify;
        model.At(v.height).certify == (if qc.Some? then was + multiset{qc.value} else was)
    {
      RunsCount(model, high, v);
      hide Run; hide Pending;
      model := Run(model, high, LeanSpb.CountVote(v));
      var i := Rank(v.height);
      voteNums[i] := voteNums[i] + 1;
      qc := if voteNums[i] == high then Some(BlockQc(view, v.height, v.proposer, v.hash)) else None;
    }

    /** processSpeedVoteMsg: the filter and the counter. */
    method CountSpeedVote(sv: SpeedVoteMsg) returns (full: bool)
      requires Valid() && Pending(model, CountSpeed(sv))
      modifies this`model, this`speedVoteNums
      ensures Valid() && model == Run(old(model), high, CountSpeed(sv))
      ensures model.fast.storeCert == old(model).fast.storeCert + (if full then 1 else 0)
    {
      model := Run(model, high, CountSpeed(sv));
      if sv.proposer != proposer || sv.view != view {
        return false;
      }
      speedVoteNums := speedVoteNums + 1;
      full := speedVoteNums == high;
    }

    method StoreCert()
      requires Valid() && Pending(model, LeanSpb.StoreCert)
      modifies this`model, this`isSpeedCert
      ensures Valid() && model == Run(old(model), high, LeanSpb.StoreCert)
    {
      model := Run(model, high, LeanSpb.StoreCert);
      isSpeedCert := true;
    }

    /** DecCert */
    function HasDecCert(): (r: bool)
      requires Valid()
      reads Repr()
      ensures r == DecCert(model)
    {
      blockQcs[0].Some? && blockQcs[1].Some?
    }

    /** BlockHash */
    function HashAt(h: Height): (d: Digest)
      requires Valid()
      reads Repr()
      ensures d == model.At(h).hash
    {
      blockHash[Rank(h)]
    }

    /** QCLEvel */
    function QcLevel(): (r: (Level, Option<BlockQc>))
      requires Valid()
      reads Repr()
      ensures r == (LevelOf(model), LevelQc(model))
    {
      if blockQcs[0].Some? && blockQcs[1].Some? then (Level2, blockQcs[1])
      else if blockQcs[0].Some? then (Level1, blockQcs[0])
      else (Level0, preQc)
    }
  }

  // ----- processCoin without interference -----

  function Left(s: LN.Stage): nat {
    match s
    case AskSpeed => 4
    case AskDec => 3
    case ReadHash(_) => 2
    case AskLevel => 1
  }

  /** The remaining questions of processCoin, one after the other. */
  ghost function FinishCoin(id: NodeId, nd: LN.Node): (LN.Node, Option<LN.Msg>)
    decreases if nd.coin.None? then 0 else Left(nd.coin.value.stage)
  {
    if nd.coin.None? then (nd, None)
    else
      var (mid, out) := LN.CoinStep(id, nd);
      StepsOn(id, nd);
      if mid.coin.None? then (mid, out) else FinishCoin(id, mid)
  }

  lemma StepsOn(id: NodeId, nd: LN.Node)
    requires nd.coin.Some?
    ensures var mid := LN.CoinStep(id, nd).0; mid.coin.Some? ==> Left(mid.coin.value.stage) < Left(nd.coin.value.stage)
  {
    hide Enqueue; hide LN.MakeReport; hide LN.InstanceAt;
  }

  /** The hash processCoin looks up for a leader. */
  function CommitTarget(x: Instance): Option<Digest> {
    if x.fast.isSpeedCert then Some(x.hi.hash) else if DecCert(x) then Some(x.lo.hash) else None
  }

  lemma Reports(id: NodeId, nd: LN.Node, leader: NodeId, view: nat)
    requires nd.coin.None?
    ensures FinishCoin(id, nd.(coin := Some(LN.Coin(view, leader, LN.AskLevel))))
         == (nd.(coinViews := nd.coinViews + {view}),
           Some(LN.ReportMsg(LN.MakeReport(id, view, LN.InstanceAt(nd, LN.Key(view, leader))))))
  {
    hide LN.MakeReport;
    var t := nd.(coin := Some(LN.Coin(view, leader, LN.AskLevel)));
    assert LN.InstanceAt(t, LN.Key(view, leader)) == LN.InstanceAt(nd, LN.Key(view, leader));
  }

  lemma ReadsHash(id: NodeId, nd: LN.Node, leader: NodeId, view: nat, h: Height)
    requires nd.coin.None?
    ensures var x := LN.InstanceAt(nd, LN.Key(view, leader));
      var d := x.At(h).hash;
      FinishCoin(id, nd.(coin := Some(LN.Coin(view, leader, LN.ReadHash(h))))) ==
        if d in nd.store then
          (nd.(gate := Enqueue(nd.gate, nd.store[d]), coinViews := nd.coinViews + {view}),
           Some(LN.ReportMsg(LN.MakeReport(id, view, x))))
        else (nd, None)
  {
    hide LN.MakeReport; hide Enqueue;
    var t := nd.(coin := Some(LN.Coin(view, leader, LN.ReadHash(h))));
    var x := LN.InstanceAt(nd, LN.Key(view, leader));
    assert LN.InstanceAt(t, LN.Key(view, leader)) == x;
    if x.At(h).hash in nd.store {
      var mid := nd.(gate := Enqueue(nd.gate, nd.store[x.At(h).hash]));
      assert LN.InstanceAt(mid, LN.Key(view, leader)) == x;
      Reports(id, mid, leader, view);
    } else {
      assert t.(coin := None) == nd;
    }
  }

  /** What processCoin does when no section of the instance runs between its questions. */
  function Settled(id: NodeId, nd: LN.Node, k: LN.Key): (LN.Node, Option<LN.Msg>) {
    var x := LN.InstanceAt(nd, k);
    var d := CommitTarget(x);
    if d.Some? && d.value !in nd.store then (nd, None)
    else
      var nd' := if d.Some? then nd.(gate := Enqueue(nd.gate, nd.store[d.value])) else nd;
      (nd'.(coinViews := nd.coinViews + {k.view}), Some(LN.ReportMsg(LN.MakeReport(id, k.view, x))))
  }

  lemma CoinSettles(id: NodeId, nd: LN.Node, leader: NodeId, view: nat)
    requires nd.coin.None? && view !in nd.coinViews
    ensures FinishCoin(id, LN.OnCoinMsg(nd, leader, view)) == Settled(id, nd, LN.Key(view, leader))
  {
    hide LN.MakeReport; hide Enqueue; hide DecCert; hide LN.InstanceAt;
    var k := LN.Key(view, leader);
    var x := LN.InstanceAt(nd, k);
    var t := LN.OnCoinMsg(nd, leader, view);
    var t' := nd.(coin := Some(LN.Coin(view, leader, LN.AskDec)));
    SameAt(nd, t, k);
    SameAt(nd, t', k);
    if x.fast.isSpeedCert {
      ReadsHash(id, nd, leader, view, H2);
    } else if DecCert(x) {
      assert FinishCoin(id, t) == FinishCoin(id, t');
      ReadsHash(id, nd, leader, view, H1);
    } else {
      assert FinishCoin(id, t) == FinishCoin(id, t');
      Reports(id, nd, leader, view);
    }
  }

  lemma SameAt(nd: LN.Node, nd': LN.Node, k: LN.Key)
    requires nd'.instances == nd.instances
    ensures LN.InstanceAt(nd', k) == LN.InstanceAt(nd, k)
  {
  }

  lemma RoutedTwice(nd: LN.Node, k: LN.Key, d: Delivery)
    ensures var mid := nd.(instances := nd.instances[k := LN.InstanceAt(nd, k)]);
      mid.(instances := mid.instances[k := Deliver(mid.instances[k], d)]) == LN.Route(nd, k, d)
  {
    hide Deliver; hide LN.InstanceAt;
  }

  // ----- Core -----

  /** The same node, but for instances that were looked up and hold nothing. */
  ghost predicate Alike(nd: LN.Node, nd': LN.Node) {
    nd' == nd.(instances := nd'.instances) && forall k: LN.Key :: LN.InstanceAt(nd', k) == LN.InstanceAt(nd, k)
  }

  lemma NothingLeft(id: NodeId, nd: LN.Node)
    requires nd.coin.None?
    ensures FinishCoin(id, nd) == (nd, None)
  {
  }

  lemma SameNode(nd: LN.Node)
    ensures Alike(nd, nd)
  {
  }

  /** Looking an instance up makes no difference to what processCoin does. */
  lemma LookedUp(id: NodeId, nd: LN.Node, k: LN.Key)
    ensures var mid := nd.(instances := nd.instances[k := LN.InstanceAt(nd, k)]);
      Alike(Settled(id, nd, k).0, Settled(id, mid, k).0) && Settled(id, nd, k).1 == Settled(id, mid, k).1
  {
    hide LN.MakeReport; hide Enqueue; hide CommitTarget;
  }

  class LeanCore {
    const cfg: LN.Config
    const id: NodeId
    const eletor: Elector.LeaderElector
    const commitor: Gatekeeper
    const reports: ReportCounter   // view and reportNums

    var started: bool
    var taken: nat
    var spbInstances: map<LN.Key, Spb>
    var store: map<Digest, Block>
    var coinViewFlags: set<nat>
    var finVoteNums: map<nat, set<NodeId>>
    ghost var got: set<LN.Msg>
    ghost var owned: set<object>

    ghost predicate Valid()
      reads this`spbInstances, this`owned, eletor, commitor, reports, owned
    {
      && cfg.n >= 1 && eletor.n == cfg.n && eletor.coin == cfg.coin
      && reports.Valid() && reports.high == High(cfg.n) && reports.filtered && Ordered(commitor.Model())
      && this !in owned && eletor !in owned && commitor !in owned && reports !in owned
      && (forall k :: k in spbInstances ==> spbInstances[k].Repr() <= owned && Owns(k, spbInstances[k]))
      && (forall k, c :: k in spbInstances && c in spbInstances && k != c ==>
        spbInstances[k].Repr() !! spbInstances[c].Repr())
    }

    ghost predicate Owns(k: LN.Key, x: Spb)
      reads x.Repr()
    {
      x.Valid() && x.proposer == k.node && x.view == k.view && x.high == High(cfg.n)
    }

    ghost function Instances(): map<LN.Key, Instance>
      reads this`spbInstances, spbInstances.Values
    {
      map k | k in spbInstances :: spbInstances[k].model
    }

    /** The fields as a node of the transition system, between two handlers. */
    ghost function Model(): LN.Node
      reads this, eletor, commitor, reports, spbInstances.Values
    {
      LN.Node(started, reports.Model(), taken, Instances(), store, eletor.Value(), commitor.Model(), coinViewFlags,
              finVoteNums, None, got)
    }

    constructor (cfg: LN.Config, id: NodeId)
      requires cfg.n >= 1
      ensures Valid() && this.cfg == cfg && this.id == id && Model() == LN.INIT
    {
      this.cfg, this.id := cfg, id;
      eletor := new Elector.LeaderElector(cfg.n, cfg.coin);
      commitor := new Gatekeeper();
      reports := new ReportCounter(High(cfg.n), true);
      started, taken, spbInstances, store, coinViewFlags, finVoteNums, got, owned :=
        false, 0, map[], map[], {}, map[], {}, {};
    }

    lemma InstanceIsValid(k: LN.Key)
      requires Valid() && k in spbInstances
      ensures spbInstances[k].Valid()
    {
      assert Owns(k, spbInstances[k]);
    }

    /** NewSPB */
    method NewSpb(k: LN.Key) returns (x: Spb)
      ensures Owns(k, x) && x.model == Init(k.node, k.view) && fresh(x.Repr())
    {
      x := new Spb(k.node, k.view, High(cfg.n));
    }

    /** A new instance enters the map. */
    method Adopt(k: LN.Key, x: Spb)
      requires Valid() && k !in spbInstances && Owns(k, x) && x.Repr() !! owned
      requires this !in x.Repr() && eletor !in x.Repr() && commitor !in x.Repr() && reports !in x.Repr()
      modifies this`spbInstances, this`owned
      ensures Valid() && spbInstances == old(spbInstances)[k := x] && owned == old(owned) + x.Repr()
      ensures Model() == old(Model()).(instances := old(Model()).instances[k := x.model])
    {
      hide Owns; hide High; hide Ordered; hide AllOpen; hide ReportCounter.Valid; hide Spb.Repr;
      spbInstances, owned := spbInstances[k := x], owned + x.Repr();
      assert forall o :: o in owned ==> unchanged(o);
      forall c | c in spbInstances && c != k
        ensures spbInstances[c].Repr() <= owned && Owns(c, spbInstances[c]) && spbInstances[c].Repr() !! x.Repr()
      {
        assert old(spbInstances[c].Repr() <= owned && Owns(c, spbInstances[c]));
      }
      assert old(Owns(k, x));
      assert Instances() == old(Instances())[k := x.model];
    }

    method AddSpb(k: LN.Key) returns (x: Spb)
      requires Valid() && k !in spbInstances
      modifies this`spbInstances, this`owned
      ensures Valid() && k in spbInstances && spbInstances[k] == x && x.model == Init(k.node, k.view)
      ensures Model() == old(Model()).(instances := old(Model()).instances[k := Init(k.node, k.view)])
      ensures fresh(owned - old(owned))
    {
      hide Owns; hide Valid; hide Init; hide Instances;
      x := NewSpb(k);
      Adopt(k, x);
    }

    /** getSpbInstance */
    method GetSpbInstance(k: LN.Key) returns (x: Spb)
      requires Valid()
      modifies this`spbInstances, this`owned
      ensures Valid() && k in spbInstances && spbInstances[k] == x && x.model == LN.InstanceAt(old(Model()), k)
      ensures Model() == old(Model()).(instances := old(Model()).instances[k := LN.InstanceAt(old(Model()), k)])
      ensures fresh(owned - old(owned))
    {
      hide Valid; hide Init;
      if k in spbInstances {
        x := spbInstances[k];
        assert Instances()[k := x.model] == Instances();
      } else {
        x := AddSpb(k);
      }
    }

    /** `go` on an instance of the core. */
    method StartIn(k: LN.Key, x: Spb, d: Delivery)
      requires Valid() && k in spbInstances && spbInstances[k] == x
      modifies x`model
      ensures Valid()
      ensures Model() == old(Model()).(instances := old(Model()).instances[k := Deliver(old(Model()).instances[k], d)])
    {
      hide Owns; hide High; hide Ordered; hide AllOpen; hide Init; hide Deliver;
      StartAt(k, x, d);
      forall c | c in spbInstances && c != k ensures Owns(c, spbInstances[c]) {
        assert old(Owns(c, spbInstances[c]));
        assert forall o :: o in spbInstances[c].Repr() ==> unchanged(o);
      }
      assert Model().instances == old(Model()).instances[k := x.model];
    }

    method StartAt(k: LN.Key, x: Spb, d: Delivery)
      requires Owns(k, x)
      modifies x`model
      ensures Owns(k, x) && x.model == Deliver(old(x.model), d)
    {
      hide Deliver;
      x.Start(d);
    }

    /** getSpbInstance and `go`: a goroutine of the instance is started. */
    method Route(k: LN.Key, d: Delivery)
      requires Valid()
      modifies this`spbInstances, this`owned, owned
      ensures Valid() && fresh(owned - old(owned)) && Model() == LN.Route(old(Model()), k, d)
    {
      hide *;
      ghost var before := Model();
      var x := GetSpbInstance(k);
      OwnedHas(k);
      StartIn(k, x, d);
      RoutedTwice(before, k, d);
    }

    lemma OwnsNotItself()
      requires Valid()
      ensures this !in owned && eletor !in owned && commitor !in owned && reports !in owned
    {
    }

    lemma OwnedHas(k: LN.Key)
      requires Valid() && k in spbInstances
      ensures spbInstances[k] in owned
    {
      assert spbInstances[k] in spbInstances[k].Repr();
    }

    // ----- Handlers -----

    /** Run, up to the first proposal. */
    method Begin(ready: bool) returns (out: Option<LN.Msg>)
      requires Valid()
      modifies this`started, this`taken
      ensures Valid() && (Model(), out) == LN.Start(cfg, id, old(Model()), ready)
    {
      hide Valid; hide Instances;
      OwnsNotItself();
      started := true;
      out := Some(LN.ProposeMsg(Block(id, reports.view, H1, if ready then id + cfg.n * taken else -1, None, [])));
      taken := if ready then taken + 1 else taken;
    }

    /** handleProposeMsg */
    method HandlePropose(b: Block)
      requires Valid()
      modifies this`store, this`spbInstances, this`got, this`owned, owned
      ensures Valid() && Model() == LN.OnProposeMsg(old(Model()), b).(got := old(got) + {LN.ProposeMsg(b)})
    {
      hide Valid; hide Hash; hide Deliver; hide LN.InstanceAt;
      OwnsNotItself();
      ghost var before := Model();
      got := got + {LN.ProposeMsg(b)};
      store := store[Hash(b) := b];
      if b.view < reports.view {
        return;
      }
      SameAt(before.(store := store), Model(), LN.Key(b.view, b.author));
      Route(LN.Key(b.view, b.author), Proposal(b));
    }

    /** handleVoteMsg */
    method HandleVote(v: VoteMsg)
      requires Valid()
      modifies this`spbInstances, this`got, this`owned, owned
      ensures Valid() && Model() == LN.OnVoteMsg(old(Model()), v).(got := old(got) + {LN.VoteOf(v)})
    {
      hide Valid; hide Deliver; hide LN.InstanceAt;
      OwnsNotItself();
      ghost var before := Model();
      got := got + {LN.VoteOf(v)};
      if v.view < reports.view {
        return;
      }
      SameAt(before, Model(), LN.Key(v.view, v.proposer));
      Route(LN.Key(v.view, v.proposer), Vote(v));
    }

    /** handleFinVoteMsg */
    method HandleFinVote(fv: FinVote) returns (out: Option<LN.Msg>)
      requires Valid()
      modifies this`finVoteNums, this`spbInstances, this`got, this`owned, owned
      ensures Valid()
      ensures var r := LN.OnFinMsg(cfg, id, old(Model()), fv);
        Model() == r.0.(got := old(got) + {LN.FinOf(fv)}) && out == r.1
    {
      hide Valid; hide Deliver; hide High; hide LN.InstanceAt;
      OwnsNotItself();
      ghost var before := Model();
      got := got + {LN.FinOf(fv)};
      if fv.view < reports.view {
        return None;
      }
      var authors := (if fv.view in finVoteNums then finVoteNums[fv.view] else {}) + {fv.author};
      finVoteNums := finVoteNums[fv.view := authors];
      out := if |authors| == High(cfg.n) then Some(LN.ElectMsg(id, fv.view)) else None;
      SameAt(before.(finVotes := finVoteNums), Model(), LN.Key(fv.view, fv.author));
      Route(LN.Key(fv.view, fv.author), Fin(fv));
    }

    /** handleSpeedVoteMsg */
    method HandleSpeedVote(sv: SpeedVoteMsg)
      requires Valid()
      modifies this`spbInstances, this`got, this`owned, owned
      ensures Valid() && Model() == LN.OnSpeedMsg(old(Model()), sv).(got := old(got) + {LN.SpeedOf(sv)})
    {
      hide Valid; hide Deliver; hide LN.InstanceAt;
      OwnsNotItself();
      ghost var before := Model();
      got := got + {LN.SpeedOf(sv)};
      if sv.view < reports.view {
        return;
      }
      SameAt(before, Model(), LN.Key(sv.view, sv.proposer));
      Route(LN.Key(sv.view, sv.proposer), SpeedVote(sv));
    }

    /** The commitor's gate. */
    method Commit(b: Block)
      requires Valid()
      modifies commitor
      ensures Valid() && Model() == old(Model()).(gate := Enqueue(old(Model()).gate, b))
    {
      hide Owns; hide High; hide Ordered; hide AllOpen; hide Enqueue;
      OwnsNotItself();
      commitor.Commit(b);
      forall c | c in spbInstances ensures Owns(c, spbInstances[c]) {
        assert old(Owns(c, spbInstances[c]));
        assert forall o :: o in spbInstances[c].Repr() ==> unchanged(o);
      }
    }

    /** The commit part of processCoin; a block that is not in the store is an error. */
    method CommitLeader(k: LN.Key, x: Spb) returns (ok: bool)
      requires Valid() && k in spbInstances && spbInstances[k] == x
      modifies commitor
      ensures Valid()
      ensures var d := CommitTarget(old(x.model));
        && ok == (d.None? || d.value in store)
        && Model() == if ok && d.Some? then old(Model()).(gate := Enqueue(old(Model()).gate, store[d.value]))
          else old(Model())
    {
      hide Valid; hide Model; hide Enqueue; hide DecCert; hide Spb.Valid;
      InstanceIsValid(k);
      if x.isSpeedCert {
        var d := x.HashAt(H2);
        if d !in store {
          return false;
        }
        Commit(store[d]);
      } else if x.HasDecCert() {
        var d := x.HashAt(H1);
        if d !in store {
          return false;
        }
        Commit(store[d]);
      }
      return true;
    }

    /** processCoin from the lookup of the instance on. */
    method SettleCoin(k: LN.Key, x: Spb) returns (out: Option<LN.Msg>)
      requires Valid() && k in spbInstances && spbInstances[k] == x
      modifies this`coinViewFlags, commitor
      ensures Valid() && Model() == Settled(id, old(Model()), k).0 && out == Settled(id, old(Model()), k).1
    {
      hide Valid; hide Enqueue; hide CommitTarget; hide LevelOf; hide LevelQc;
      OwnsNotItself();
      ModelAt(k);
      var ok := CommitLeader(k, x);
      if !ok {
        return None;
      }
      InstanceIsValid(k);
      var (level, qc) := x.QcLevel();
      coinViewFlags := coinViewFlags + {k.view};
      out := Some(LN.ReportMsg(LN.Report(id, k.view, level, qc)));
    }

    lemma ModelAt(k: LN.Key)
      requires k in spbInstances
      ensures LN.InstanceAt(Model(), k) == spbInstances[k].model
    {
    }

    /** processCoin */
    method ProcessCoin(leader: NodeId, v: nat) returns (out: Option<LN.Msg>)
      requires Valid()
      modifies this`spbInstances, this`owned, this`coinViewFlags, commitor
      ensures Valid() && fresh(owned - old(owned))
      ensures var r := FinishCoin(id, LN.OnCoinMsg(old(Model()), leader, v)); Alike(r.0, Model()) && out == r.1
    {
      hide Valid; hide Settled; hide FinishCoin; hide LN.InstanceAt;
      OwnsNotItself();
      ghost var before := Model();
      if v in coinViewFlags {
        NothingLeft(id, before);
        SameNode(before);
        return None;
      }
      CoinSettles(id, before, leader, v);
      LookedUp(id, before, LN.Key(v, leader));
      var x := GetSpbInstance(LN.Key(v, leader));
      OwnsNotItself();
      out := SettleCoin(LN.Key(v, leader), x);
    }

    /** handleElectMsg */
    method HandleElect(author: NodeId, v: nat) returns (coin: Option<LN.Msg>, report: Option<LN.Msg>)
      requires Valid()
      modifies this`spbInstances, this`owned, this`coinViewFlags, this`got, eletor, commitor
      ensures Valid() && fresh(owned - old(owned))
      ensures var (nd, m) := LN.OnElectMsg(cfg, id, old(Model()), author, v);
        var r := FinishCoin(id, nd.(got := old(got) + {LN.ElectMsg(author, v)}));
        coin == m && Alike(r.0, Model()) && report == r.1
    {
      hide Valid; hide FinishCoin; hide LN.InstanceAt; hide Elector.AddElect;
      OwnsNotItself();
      ghost var before := Model();
      got := got + {LN.ElectMsg(author, v)};
      assert Model() == before.(got := got);
      if v < reports.view {
        NothingLeft(id, Model());
        SameNode(Model());
        return None, None;
      }
      var verdict := AddElect(author, v);
      if verdict.Leader? {
        coin := Some(LN.CoinMsg(verdict.id, id, v));
        report := ProcessCoin(verdict.id, v);
      } else {
        NothingLeft(id, Model());
        SameNode(Model());
        return None, None;
      }
    }

    /** The elector. */
    method AddElect(author: NodeId, v: nat) returns (verdict: Elector.Verdict)
      requires Valid()
      modifies eletor
      ensures Valid()
      ensures var (e, w) := Elector.AddElect(old(Model()).elector, cfg.n, cfg.coin, author, v);
        Model() == old(Model()).(elector := e) && verdict == w
    {
      hide Owns; hide High; hide Ordered; hide AllOpen; hide Elector.AddElect;
      OwnsNotItself();
      verdict := eletor.Add(author, v);
      forall c | c in spbInstances ensures Owns(c, spbInstances[c]) {
        assert old(Owns(c, spbInstances[c]));
        assert forall o :: o in spbInstances[c].Repr() ==> unchanged(o);
      }
    }

    /** handleCoinMsg */
    method HandleCoin(leader: NodeId, author: NodeId, v: nat) returns (report: Option<LN.Msg>)
      requires Valid()
      modifies this`spbInstances, this`owned, this`coinViewFlags, this`got, commitor
      ensures Valid() && fresh(owned - old(owned))
      ensures var nd := LN.OnCoinMsg(old(Model()), leader, v).(got := old(got) + {LN.CoinMsg(leader, author, v)});
        var r := FinishCoin(id, nd); Alike(r.0, Model()) && report == r.1
    {
      hide Valid; hide FinishCoin; hide LN.InstanceAt;
      OwnsNotItself();
      ghost var before := Model();
      got := got + {LN.CoinMsg(leader, author, v)};
      assert Model() == before.(got := got);
      report := ProcessCoin(leader, v);
    }

    /** The report counters. */
    method CountReport(v: nat, level: Level) returns (advanced: bool)
      requires Valid()
      modifies reports
      ensures Valid()
      ensures var o := OnReport(old(Model()).progress, High(cfg.n), true, v, level);
        Model() == old(Model()).(progress := o.0) && advanced == o.1
    {
      hide Owns; hide High; hide Ordered; hide AllOpen; hide OnReport; hide Reached;
      advanced := reports.HandleReport(v, level);
      forall c | c in spbInstances ensures Owns(c, spbInstances[c]) {
        assert old(Owns(c, spbInstances[c]));
        assert forall o :: o in spbInstances[c].Repr() ==> unchanged(o);
      }
    }

    /** handleReportMsg with advanceView */
    method HandleReport(r: LN.Report, ready: bool) returns (out: Option<LN.Msg>)
      requires Valid()
      modifies this`taken, this`got, reports
      ensures Valid()
      ensures var o := LN.OnReportMsg(cfg, id, old(Model()), r, ready);
        Model() == o.0.(got := old(got) + {LN.ReportMsg(r)}) && out == o.1
    {
      hide Valid; hide High; hide OnReport; hide Instances;
      OwnsNotItself();
      ghost var before := Model();
      got := got + {LN.ReportMsg(r)};
      assert Model() == before.(got := got);
      var advanced := CountReport(r.view, r.level);
      if advanced {
        out := Some(LN.ProposeMsg(Block(id, reports.view, H1, if ready then id + cfg.n * taken else -1, r.qc, [])));
        taken := if ready then taken + 1 else taken;
      } else {
        out := None;
      }
    }
  }
}
