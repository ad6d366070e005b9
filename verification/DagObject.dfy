/**
  The DAG core as an object: the fields of DAGBigCore and its handlers, each run to its end by the event
  loop.  Every handler is a step of the node of the transition system; processCoin and advanceView are the
  stepwise reads of that node when no instance section runs in between.  The core owns its instances, elector and
  commitor gate.
 */
module DagObject {
  import opened Blocks
  import opened Quorum
  import opened CommitLog
  import opened DagNode
  import Spb
  import Elector
  import opened SpbObject

  // ----- advanceView without interference -----

  /** The remaining reads of a scan, one after the other. */
  ghost function FinishScan(cfg: Config, id: NodeId, nd: Node, ready: bool): (Node, Option<Msg>)
    decreases if nd.scan.None? then 0 else if nd.scan.value.next < cfg.n then cfg.n - nd.scan.value.next + 1 else 1
  {
    if nd.scan.None? then (nd, None)
    else
      var (nd', out) := ScanStep(cfg, id, nd, ready);
      if nd'.scan.None? then (nd', out) else FinishScan(cfg, id, nd', ready)
  }

  /** What advanceView decides once it has the references. */
  function Decide(cfg: Config, id: NodeId, nd: Node, view: nat, h: Height, refs: seq<BlockQc>,
                  ready: bool): (Node, Option<Msg>) {
    if |refs| >= High(cfg.n)
      then (Move(nd, view, h, ready), Some(ProposeMsg(MakeBlock(cfg, id, nd, view, h, refs, ready))))
    else (nd, None)
  }

  lemma {:induction false} ReferencesFrame(nd: Node, nd': Node, n: nat, view: nat, h: Height)
    requires forall k: Key :: InstanceAt(nd', k) == InstanceAt(nd, k)
    ensures References(nd', n, view, h) == References(nd, n, view, h)
  {
    hide InstanceAt;
    if n > 0 {
      ReferencesFrame(nd, nd', n - 1, view, h);
    }
  }

  /** A scan that nothing interrupts collects the certificates of the whole layer, by proposer. */
  lemma {:induction false} ScanCollectsReferences(cfg: Config, id: NodeId, nd: Node, sc: Scan, ready: bool)
    requires nd.scan == Some(sc) && sc.next <= cfg.n
    requires sc.refs == References(nd, sc.next, ParentView(sc.view, sc.height), ParentHeight(sc.height))
    ensures FinishScan(cfg, id, nd, ready)
         == Decide(cfg, id, nd.(scan := None), sc.view, sc.height,
                   References(nd, cfg.n, ParentView(sc.view, sc.height), ParentHeight(sc.height)), ready)
    decreases cfg.n - sc.next
  {
    hide High; hide QcAt;
    if sc.next < cfg.n {
      var nd' := ScanStep(cfg, id, nd, ready).0;
      var v, h := ParentView(sc.view, sc.height), ParentHeight(sc.height);
      ReferencesFrame(nd, nd', sc.next + 1, v, h);
      ReferencesFrame(nd, nd', cfg.n, v, h);
      ScanCollectsReferences(cfg, id, nd', nd'.scan.value, ready);
      MoveIgnoresScan(cfg, id, nd, nd', sc.view, sc.height, References(nd, cfg.n, v, h), ready);
    }
  }

  lemma MoveIgnoresScan(cfg: Config, id: NodeId, nd: Node, nd': Node, view: nat, h: Height, refs: seq<BlockQc>,
                        ready: bool)
    requires nd'.(scan := None) == nd.(scan := None)
    ensures Decide(cfg, id, nd'.(scan := None), view, h, refs, ready) ==
      Decide(cfg, id, nd.(scan := None), view, h, refs, ready)
  {
  }

  lemma AdvanceDecides(cfg: Config, id: NodeId, nd: Node, view: nat, h: Height, ready: bool)
    requires nd.scan.None? && IsNext(nd, view, h)
    ensures FinishScan(cfg, id, Advance(nd, view, h), ready)
         == Decide(cfg, id, nd, view, h, References(nd, cfg.n, ParentView(view, h), ParentHeight(h)), ready)
  {
    var nd' := Advance(nd, view, h);
    ScanCollectsReferences(cfg, id, nd', nd'.scan.value, ready);
    ReferencesFrame(nd, nd', cfg.n, ParentView(view, h), ParentHeight(h));
    assert nd'.(scan := None) == nd;
  }

  lemma AdvanceStays(cfg: Config, id: NodeId, nd: Node, view: nat, h: Height, ready: bool)
    requires nd.scan.None? && !IsNext(nd, view, h)
    ensures FinishScan(cfg, id, Advance(nd, view, h), ready) == (nd, None)
  {
  }

  // ----- processCoin without interference -----

  /** The leader is known. */
  function Tossed(nd: Node, leader: NodeId, view: nat): Node {
    nd.(coin := Some(Coin(view, leader, None)))
  }

  /** The remaining reads of processCoin, one after the other. */
  ghost function FinishCoin(cfg: Config, nd: Node): Node
    decreases if nd.coin.None? then 0 else if nd.coin.value.read.Some? then 1 else 2
  {
    if nd.coin.None? then nd else var mid := CoinStep(cfg, nd); StepsOn(cfg, nd); FinishCoin(cfg, mid)
  }

  lemma StepsOn(cfg: Config, nd: Node)
    requires nd.coin.Some?
    ensures var mid := CoinStep(cfg, nd); mid.coin.Some? ==> nd.coin.value.read.None? && mid.coin.value.read.Some?
  {
    hide Enqueue; hide InstanceAt; hide CommitHeight;
  }

  lemma HashRead(cfg: Config, nd: Node, leader: NodeId, view: nat, h: Height)
    requires nd.coin.None?
    ensures var d := InstanceAt(nd, Key(view, leader)).At(h).hash;
      var nd' := CoinStep(cfg, nd.(coin := Some(Coin(view, leader, Some(h)))));
      && (d in nd.store ==> nd' == Advance(nd.(gate := Enqueue(nd.gate, nd.store[d])), view + 1, H1))
      && (d !in nd.store ==> nd' == nd)
      && nd'.coin.None?
  {
    hide Enqueue;
    var t := nd.(coin := Some(Coin(view, leader, Some(h))));
    assert InstanceAt(t, Key(view, leader)) == InstanceAt(nd, Key(view, leader));
    assert t.(coin := None) == nd;
    hide InstanceAt;
  }

  lemma CoinAsked(cfg: Config, nd: Node, leader: NodeId, view: nat)
    requires nd.coin.None?
    ensures var h := CommitHeight(cfg, nd, leader, view);
      var nd' := CoinStep(cfg, Tossed(nd, leader, view));
      && (h.None? ==> nd' == Advance(nd, view + 1, H1) && nd'.coin.None?)
      && (h.Some? ==> nd' == nd.(coin := Some(Coin(view, leader, h))))
  {
    var t := Tossed(nd, leader, view);
    assert InstanceAt(t, Key(view, leader)) == InstanceAt(nd, Key(view, leader));
    assert t.(coin := None) == nd;
    hide InstanceAt;
  }

  /** What processCoin does when no section of the instance runs between its two reads. */
  lemma CoinSettles(cfg: Config, nd: Node, leader: NodeId, view: nat)
    requires nd.coin.None?
    ensures var h := CommitHeight(cfg, nd, leader, view);
      var nd' := FinishCoin(cfg, Tossed(nd, leader, view));
      && (h.None? ==> nd' == Advance(nd, view + 1, H1))
      && (h.Some? ==> var d := InstanceAt(nd, Key(view, leader)).At(h.value).hash;
            && (d in nd.store ==> nd' == Advance(nd.(gate := Enqueue(nd.gate, nd.store[d])), view + 1, H1))
            && (d !in nd.store ==> nd' == nd))
  {
    hide Enqueue; hide Advance; hide CoinStep; hide CommitHeight; hide InstanceAt;
    CoinAsked(cfg, nd, leader, view);
    var h := CommitHeight(cfg, nd, leader, view);
    var t := Tossed(nd, leader, view);
    assert FinishCoin(cfg, t) == FinishCoin(cfg, CoinStep(cfg, t));
    if h.Some? {
      HashRead(cfg, nd, leader, view, h.value);
      var mid := CoinStep(cfg, t);
      assert FinishCoin(cfg, mid) == FinishCoin(cfg, CoinStep(cfg, mid));
    }
  }

  // ----- Instances that hold nothing -----

  /** The same node, but for instances that were looked up and hold nothing. */
  ghost predicate Alike(nd: Node, nd': Node) {
    nd' == nd.(instances := nd'.instances) && forall k: Key :: InstanceAt(nd', k) == InstanceAt(nd, k)
  }

  lemma AlikeSelf(nd: Node)
    ensures Alike(nd, nd)
  {
  }

  lemma AlikeOn(a: Node, b: Node, c: Node)
    requires Alike(a, b) && Alike(b, c)
    ensures Alike(a, c)
  {
    hide InstanceAt;
  }

  lemma LookedUp(nd: Node, k: Key)
    ensures Alike(nd, nd.(instances := nd.instances[k := InstanceAt(nd, k)]))
  {
  }

  /** What advanceView does without interference. */
  function Advanced(cfg: Config, id: NodeId, nd: Node, view: nat, h: Height, ready: bool): (Node, Option<Msg>) {
    if IsNext(nd, view, h) then
      Decide(cfg, id, nd, view, h, References(nd, cfg.n, ParentView(view, h), ParentHeight(h)), ready)
    else (nd, None)
  }

  lemma AdvanceIs(cfg: Config, id: NodeId, nd: Node, view: nat, h: Height, ready: bool)
    requires nd.scan.None?
    ensures FinishScan(cfg, id, Advance(nd, view, h), ready) == Advanced(cfg, id, nd, view, h, ready)
  {
    hide FinishScan; hide Decide; hide References;
    if IsNext(nd, view, h) {
      AdvanceDecides(cfg, id, nd, view, h, ready);
    } else {
      AdvanceStays(cfg, id, nd, view, h, ready);
    }
  }

  lemma AdvancedAlike(cfg: Config, id: NodeId, nd: Node, nd': Node, view: nat, h: Height, ready: bool)
    requires Alike(nd, nd')
    ensures Alike(Advanced(cfg, id, nd, view, h, ready).0, Advanced(cfg, id, nd', view, h, ready).0)
    ensures Advanced(cfg, id, nd, view, h, ready).1 == Advanced(cfg, id, nd', view, h, ready).1
  {
    hide References; hide High; hide InstanceAt;
    ReferencesFrame(nd, nd', cfg.n, ParentView(view, h), ParentHeight(h));
    MoveAlike(nd, nd', view, h, ready);
  }

  lemma MoveAlike(nd: Node, nd': Node, view: nat, h: Height, ready: bool)
    requires Alike(nd, nd')
    ensures Alike(Move(nd, view, h, ready), Move(nd', view, h, ready))
  {
    forall k: Key ensures InstanceAt(Move(nd', view, h, ready), k) == InstanceAt(Move(nd, view, h, ready), k) {
      assert InstanceAt(nd', k) == InstanceAt(nd, k);
    }
  }

  /** What processCoin commits without interference, and whether it goes on. */
  function Committed(cfg: Config, nd: Node, k: Key): (Node, bool) {
    match CommitHeight(cfg, nd, k.node, k.view)
    case None => (nd, true)
    case Some(h) =>
      var d := InstanceAt(nd, k).At(h).hash;
      if d in nd.store then (nd.(gate := Enqueue(nd.gate, nd.store[d])), true) else (nd, false)
  }

  lemma CoinIs(cfg: Config, id: NodeId, nd: Node, leader: NodeId, view: nat, ready: bool)
    requires nd.coin.None? && nd.scan.None?
    ensures var r := FinishScan(cfg, id, FinishCoin(cfg, Tossed(nd, leader, view)), ready);
      var c := Committed(cfg, nd, Key(view, leader));
      r == if c.1 then Advanced(cfg, id, c.0, view + 1, H1, ready) else (nd, None)
  {
    hide FinishCoin; hide Advance; hide Enqueue; hide Tossed; hide Advanced; hide InstanceAt; hide FinishScan;
    hide CommitHeight;
    var c := Committed(cfg, nd, Key(view, leader));
    CoinSettles(cfg, nd, leader, view);
    AdvanceIs(cfg, id, c.0, view + 1, H1, ready);
    NoScanLeft(cfg, id, nd, ready);
  }

  lemma NoScanLeft(cfg: Config, id: NodeId, nd: Node, ready: bool)
    requires nd.scan.None?
    ensures FinishScan(cfg, id, nd, ready) == (nd, None)
  {
  }

  lemma CommittedAlike(cfg: Config, nd: Node, nd': Node, k: Key)
    requires Alike(nd, nd')
    ensures Alike(Committed(cfg, nd, k).0, Committed(cfg, nd', k).0)
    ensures Committed(cfg, nd, k).1 == Committed(cfg, nd', k).1
    ensures Committed(cfg, nd, k).0.scan == nd.scan
    ensures !Committed(cfg, nd, k).1 ==> Committed(cfg, nd, k).0 == nd
  {
    hide Enqueue; hide Low; hide InstanceAt;
    assert k == Key(k.view, k.node);
    var c := Committed(cfg, nd, k);
    if c.0 != nd {
      GateAlike(nd, nd', c.0.gate);
    }
  }

  lemma GateAlike(nd: Node, nd': Node, g: Gate)
    requires Alike(nd, nd')
    ensures Alike(nd.(gate := g), nd'.(gate := g))
  {
    forall k: Key ensures InstanceAt(nd'.(gate := g), k) == InstanceAt(nd.(gate := g), k) {
      assert InstanceAt(nd', k) == InstanceAt(nd, k);
    }
  }

  lemma SameAt(nd: Node, nd': Node, k: Key)
    requires nd'.instances == nd.instances
    ensures InstanceAt(nd', k) == InstanceAt(nd, k)
  {
  }

  // ----- The object -----

  class DagCore {
    const cfg: Config
    const id: NodeId
    const eletor: Elector.LeaderElector
    const commitor: Gatekeeper

    var started: bool
    var view: nat
    var height: Height
    var taken: nat
    var spbInstances: map<Key, SpbInstance>
    var store: map<Digest, Block>
    var weakVotes: map<Key, nat>
    var speedVoteNums: map<Key, nat>
    var callBackSpb: multiset<nat>
    ghost var got: set<Msg>
    ghost var owned: set<object>

    ghost predicate Valid()
      reads this`spbInstances, this`owned, eletor, commitor, owned
    {
      && cfg.n >= 1 && eletor.n == cfg.n && eletor.coin == cfg.coin && Ordered(commitor.Model())
      && this !in owned && eletor !in owned && commitor !in owned
      && (forall k :: k in spbInstances ==> spbInstances[k].Repr() <= owned && Owns(k, spbInstances[k]))
      && (forall k, c :: k in spbInstances && c in spbInstances && k != c ==>
        spbInstances[k].Repr() !! spbInstances[c].Repr())
    }

    ghost predicate Owns(k: Key, x: SpbInstance)
      reads x.Repr()
    {
      x.Valid() && x.variant.Dag? && x.proposer == k.node && x.view == k.view && x.high == High(cfg.n)
    }

    ghost function Instances(): map<Key, Spb.Instance>
      reads this`spbInstances, spbInstances.Values
    {
      map k | k in spbInstances :: spbInstances[k].model
    }

    /** The fields as a node of the transition system, between two handlers. */
    ghost function Model(): Node
      reads this, eletor, commitor, spbInstances.Values
    {
      Node(started, view, height, taken, Instances(), store, weakVotes, speedVoteNums, eletor.Value(), commitor.Model(),
           None, None, callBackSpb, got)
    }

    constructor (cfg: Config, id: NodeId)
      requires cfg.n >= 1
      ensures Valid() && this.cfg == cfg && this.id == id && Model() == INIT
    {
      this.cfg, this.id := cfg, id;
      eletor := new Elector.LeaderElector(cfg.n, cfg.coin);
      commitor := new Gatekeeper();
      started, view, height, taken := false, 0, H1, 0;
      spbInstances, store, weakVotes, speedVoteNums := map[], map[], map[], map[];
      callBackSpb, got, owned := multiset{}, {}, {};
    }

    lemma OwnsNotItself()
      requires Valid()
      ensures this !in owned && eletor !in owned && commitor !in owned
    {
    }

    lemma OwnedHas(k: Key)
      requires Valid() && k in spbInstances
      ensures spbInstances[k] in owned && spbInstances[k].Valid()
    {
      assert spbInstances[k] in spbInstances[k].Repr();
      assert Owns(k, spbInstances[k]);
    }

    // ----- Instances -----

    /** NewDAGBigSPB */
    method NewSpb(k: Key) returns (x: SpbInstance)
      ensures Owns(k, x) && x.model == Spb.Init(Spb.Dag, k.node, k.view) && fresh(x.Repr())
    {
      x := new SpbInstance(Spb.Dag, k.node, k.view, High(cfg.n));
    }

    /** A new instance enters the map. */
    method Adopt(k: Key, x: SpbInstance)
      requires Valid() && k !in spbInstances && Owns(k, x) && x.Repr() !! owned
      requires this !in x.Repr() && eletor !in x.Repr() && commitor !in x.Repr()
      modifies this`spbInstances, this`owned
      ensures Valid() && spbInstances == old(spbInstances)[k := x] && owned == old(owned) + x.Repr()
      ensures Model() == old(Model()).(instances := old(Model()).instances[k := x.model])
    {
      hide Owns; hide High; hide Ordered; hide SpbInstance.Repr;
      spbInstances, owned := spbInstances[k := x], owned + x.Repr();
      assert forall o :: o in owned ==> unchanged(o);
      forall c | c in spbInstances && c != k
        ensures spbInstances[c].Repr() <= owned && Owns(c, spbInstances[c]) && spbInstances[c].Repr() !! x.Repr()
      {
        assert old(spbInstances[c].Repr() <= owned && Owns(c, spbInstances[c]));
      }
      assert old(Owns(k, x));
      assert Instances() == old(Instances())[k := x.model];
    }

    method AddSpb(k: Key) returns (x: SpbInstance)
      requires Valid() && k !in spbInstances
      modifies this`spbInstances, this`owned
      ensures Valid() && k in spbInstances && spbInstances[k] == x && x.model == Spb.Init(Spb.Dag, k.node, k.view)
      ensures Model() == old(Model()).(instances := old(Model()).instances[k := Spb.Init(Spb.Dag, k.node, k.view)])
      ensures fresh(owned - old(owned))
    {
      hide Owns; hide Valid; hide Spb.Init; hide Instances;
      x := NewSpb(k);
      Adopt(k, x);
    }

    /** getSpbInstance */
    method GetSpbInstance(k: Key) returns (x: SpbInstance)
      requires Valid()
      modifies this`spbInstances, this`owned
      ensures Valid() && k in spbInstances && spbInstances[k] == x && x.model == InstanceAt(old(Model()), k)
      ensures Model() == old(Model()).(instances := old(Model()).instances[k := InstanceAt(old(Model()), k)])
      ensures fresh(owned - old(owned))
    {
      hide Valid; hide Spb.Init;
      if k in spbInstances {
        x := spbInstances[k];
        assert Instances()[k := x.model] == Instances();
      } else {
        x := AddSpb(k);
      }
    }

    method StartAt(k: Key, x: SpbInstance, d: Spb.Delivery)
      requires Owns(k, x)
      modifies x`model
      ensures Owns(k, x) && x.model == Spb.Deliver(old(x.model), d)
    {
      hide Spb.Deliver;
      x.Start(d);
    }

    /** `go` on an instance of the core. */
    method StartIn(k: Key, x: SpbInstance, d: Spb.Delivery)
      requires Valid() && k in spbInstances && spbInstances[k] == x
      modifies x`model
      ensures Valid() && Model() ==
        old(Model()).(instances := old(Model()).instances[k := Spb.Deliver(old(Model()).instances[k], d)])
    {
      hide Owns; hide High; hide Ordered; hide Spb.Deliver;
      StartAt(k, x, d);
      forall c | c in spbInstances && c != k ensures Owns(c, spbInstances[c]) {
        assert old(Owns(c, spbInstances[c]));
        assert forall o :: o in spbInstances[c].Repr() ==> unchanged(o);
      }
      assert Instances() == old(Instances())[k := x.model];
    }

    /** getSpbInstance and `go`: a goroutine of the instance is started. */
    method Route(k: Key, d: Spb.Delivery)
      requires Valid()
      modifies this`spbInstances, this`owned, owned
      ensures Valid() && fresh(owned - old(owned))
      ensures Model() == old(Model()).(instances :=
        old(Model()).instances[k := Spb.Deliver(InstanceAt(old(Model()), k), d)])
    {
      hide *;
      ghost var before := Model();
      var x := GetSpbInstance(k);
      OwnedHas(k);
      StartIn(k, x, d);
      RoutedTwice(before, k, d);
    }

    /** The commitor's gate. */
    method Commit(b: Block)
      requires Valid()
      modifies commitor
      ensures Valid() && Model() == old(Model()).(gate := Enqueue(old(Model()).gate, b))
    {
      hide Owns; hide High; hide Ordered; hide Enqueue;
      commitor.Commit(b);
      forall c | c in spbInstances ensures Owns(c, spbInstances[c]) {
        assert old(Owns(c, spbInstances[c]));
        assert forall o :: o in spbInstances[c].Repr() ==> unchanged(o);
      }
    }

    /** The elector. */
    method AddElect(author: NodeId, v: nat) returns (verdict: Elector.Verdict)
      requires Valid()
      modifies eletor
      ensures Valid()
      ensures var (e, w) := Elector.AddElect(old(Model()).elector, cfg.n, cfg.coin, author, v);
        Model() == old(Model()).(elector := e) && verdict == w
    {
      hide Owns; hide High; hide Ordered; hide Elector.AddElect;
      verdict := eletor.Add(author, v);
      forall c | c in spbInstances ensures Owns(c, spbInstances[c]) {
        assert old(Owns(c, spbInstances[c]));
        assert forall o :: o in spbInstances[c].Repr() ==> unchanged(o);
      }
    }

    // ----- Protocol -----

    /** getReference */
    method GetReference(view: nat, h: Height) returns (refs: seq<BlockQc>)
      requires Valid()
      modifies this`spbInstances, this`owned
      ensures Valid() && fresh(owned - old(owned)) && Alike(old(Model()), Model())
      ensures refs == References(old(Model()), cfg.n, view, h)
    {
      hide Valid; hide Alike; hide InstanceAt; hide Instances;
      refs := [];
      ghost var before := Model();
      AlikeSelf(before);
      for i := 0 to cfg.n
        invariant Valid() && fresh(owned - old(owned)) && Alike(before, Model())
        invariant refs == References(before, i, view, h)
      {
        LookedUp(Model(), Key(view, i));
        AlikeAt(before, Model(), Key(view, i));
        ghost var mid := Model();
        var x := GetSpbInstance(Key(view, i));
        AlikeOn(before, mid, Model());
        OwnedHas(Key(view, i));
        var qc := x.QcAt(h);
        if qc.Some? {
          refs := refs + [qc.value];
        }
      }
    }

    /** generatorBlock */
    method GeneratorBlock(view: nat, h: Height, refs: seq<BlockQc>, ready: bool) returns (b: Block)
      modifies this`taken
      ensures b == MakeBlock(cfg, id, old(Model()), view, h, refs, ready)
      ensures taken == if ready then old(taken) + 1 else old(taken)
    {
      b := Block(id, view, h, if ready then id + cfg.n * taken else -1, None, refs);
      taken := if ready then taken + 1 else taken;
    }

    /** advanceView */
    method AdvanceView(view: nat, h: Height, ready: bool) returns (out: Option<Msg>)
      requires Valid()
      modifies this`view, this`height, this`taken, this`spbInstances, this`owned
      ensures Valid() && fresh(owned - old(owned))
      ensures var r := FinishScan(cfg, id, Advance(old(Model()), view, h), ready); Alike(r.0, Model()) && out == r.1
    {
      hide Valid; hide FinishScan; hide References; hide Advance; hide High; hide InstanceAt; hide Instances;
      OwnsNotItself();
      ghost var before := Model();
      AdvanceIs(cfg, id, before, view, h, ready);
      if !((view == this.view + 1 && h.H1?) || (view == this.view && h.H2? && height.H1?)) {
        return None;
      }
      var refs := GetReference(if h.H1? then view - 1 else view, if h.H1? then H2 else H1);
      if |refs| < High(cfg.n) {
        return None;
      }
      OwnsNotItself();
      ghost var mid := Model();
      var b := GeneratorBlock(view, h, refs, ready);
      this.view, height := view, h;
      assert Model() == Move(mid, view, h, ready);
      MoveAlike(before, mid, view, h, ready);
      assert b == MakeBlock(cfg, id, before, view, h, refs, ready);
      return Some(ProposeMsg(b));
    }

    /** The loop of handleProposeMsg over the references of a height-2 block. */
    method AddWeakVotesFor(refs: seq<BlockQc>)
      modifies this`weakVotes
      ensures weakVotes == AddWeakVotes(old(weakVotes), refs)
    {
      for i := 0 to |refs|
        invariant weakVotes == AddWeakVotes(old(weakVotes), refs[..i])
      {
        assert refs[..i + 1][..|refs[..i + 1]| - 1] == refs[..i];
        var k := Key(refs[i].view, refs[i].proposer);
        weakVotes := weakVotes[k := Count(weakVotes, k) + 1];
      }
      assert refs[..|refs|] == refs;
    }

    // ----- Handlers -----

    /** handleProposeMsg */
    method HandlePropose(b: Block)
      requires Valid()
      modifies this`store, this`weakVotes, this`spbInstances, this`got, this`owned, owned
      ensures Valid() && fresh(owned - old(owned)) && Model() == OnPropose(old(Model()), b)
    {
      hide Valid; hide Spb.Deliver; hide Hash; hide AddWeakVotes; hide InstanceAt; hide Instances;
      OwnsNotItself();
      ghost var before := Model();
      store := store[Hash(b) := b];
      if b.height.H2? {
        AddWeakVotesFor(b.references);
      }
      got := got + {ProposeMsg(b)};
      SameAt(before, Model(), Key(b.view, b.author));
      Route(Key(b.view, b.author), Spb.Proposal(b));
    }

    /** handleVoteMsg */
    method HandleVote(v: VoteMsg)
      requires Valid()
      modifies this`spbInstances, this`got, this`owned, owned
      ensures Valid() && fresh(owned - old(owned)) && Model() == OnVote(old(Model()), v)
    {
      hide Valid; hide Spb.Deliver; hide InstanceAt; hide Instances;
      OwnsNotItself();
      ghost var before := Model();
      got := got + {Voting(v)};
      SameAt(before, Model(), Key(v.view, v.proposer));
      Route(Key(v.view, v.proposer), Spb.Vote(v));
    }

    /** handleSpeedVoteMsg */
    method HandleSpeedVote(sv: SpeedVoteMsg) returns (out: Option<Msg>)
      requires Valid()
      modifies this`speedVoteNums, this`spbInstances, this`got, this`owned, owned
      ensures Valid() && fresh(owned - old(owned)) && (Model(), out) == OnSpeedVote(cfg, id, old(Model()), sv)
    {
      hide Valid; hide Spb.Deliver; hide InstanceAt; hide Instances; hide High;
      OwnsNotItself();
      ghost var before := Model();
      var a := Key(sv.view, sv.author);
      speedVoteNums := speedVoteNums[a := Count(speedVoteNums, a) + 1];
      out := if Count(speedVoteNums, Key(sv.view, id)) == High(cfg.n) then Some(ElectMsg(id, sv.view)) else None;
      got := got + {SpeedVoting(sv)};
      SameAt(before, Model(), Key(sv.view, sv.proposer));
      Route(Key(sv.view, sv.proposer), Spb.SpeedVote(sv));
    }

    /** The commit part of processCoin; a block that is not in the store is an error. */
    method CommitLeader(k: Key, x: SpbInstance) returns (ok: bool)
      requires Valid() && k in spbInstances && spbInstances[k] == x
      modifies commitor
      ensures Valid() && Model() == Committed(cfg, old(Model()), k).0 && ok == Committed(cfg, old(Model()), k).1
    {
      hide Valid; hide Enqueue; hide Low; hide Instances;
      OwnedHas(k);
      ModelAt(k);
      if x.isSpeedCert {
        var d := x.HashAt(H2);
        if d !in store {
          return false;
        }
        Commit(store[d]);
      } else if Count(weakVotes, k) >= Low(cfg.n) {
        var d := x.HashAt(H1);
        if d !in store {
          return false;
        }
        Commit(store[d]);
      }
      return true;
    }

    lemma ModelAt(k: Key)
      requires k in spbInstances
      ensures InstanceAt(Model(), k) == spbInstances[k].model
    {
    }

    /** processCoin */
    method ProcessCoin(leader: NodeId, view: nat, ready: bool) returns (out: Option<Msg>)
      requires Valid()
      modifies this`view, this`height, this`taken, this`spbInstances, this`owned, commitor
      ensures Valid() && fresh(owned - old(owned))
      ensures var r := FinishScan(cfg, id, FinishCoin(cfg, Tossed(old(Model()), leader, view)), ready);
        Alike(r.0, Model()) && out == r.1
    {
      hide Valid; hide FinishCoin; hide FinishScan; hide Committed; hide Advance; hide Alike; hide InstanceAt;
      hide Instances; hide Tossed;
      ghost var before := Model();
      var k := Key(view, leader);
      CoinIs(cfg, id, before, leader, view, ready);
      LookedUp(before, k);
      var x := GetSpbInstance(k);
      ghost var found := Model();
      CommittedAlike(cfg, before, found, k);
      var ok := CommitLeader(k, x);
      ghost var mid := Model();
      if !ok {
        return None;
      }
      AdvanceIs(cfg, id, mid, view + 1, H1, ready);
      AdvancedAlike(cfg, id, Committed(cfg, before, k).0, mid, view + 1, H1, ready);
      out := AdvanceView(view + 1, H1, ready);
      AlikeOn(Advanced(cfg, id, Committed(cfg, before, k).0, view + 1, H1, ready).0,
              Advanced(cfg, id, mid, view + 1, H1, ready).0, Model());
    }

    /** handleElectMsg */
    method HandleElect(author: NodeId, view: nat, ready: bool) returns (out: Option<Msg>)
      requires Valid()
      modifies this`got, this`view, this`height, this`taken, this`spbInstances, this`owned, commitor, eletor
      ensures Valid() && fresh(owned - old(owned))
      ensures var r := FinishScan(cfg, id, FinishCoin(cfg, OnElect(cfg, old(Model()), author, view)), ready);
        Alike(r.0, Model()) && out == r.1
    {
      hide Valid; hide CoinStep; hide FinishScan; hide Alike; hide InstanceAt; hide Instances; hide Elector.AddElect;
      OwnsNotItself();
      ghost var before := Model();
      got := got + {ElectMsg(author, view)};
      assert Model() == before.(got := got);
      var verdict := AddElect(author, view);
      if verdict.Leader? {
        out := ProcessCoin(verdict.id, view, ready);
      } else {
        NoScanLeft(cfg, id, Model(), ready);
        AlikeSelf(Model());
        out := None;
      }
    }

    /** The callback branch of the event loop. */
    method HandleCallBack(view: nat, ready: bool) returns (out: Option<Msg>)
      requires Valid()
      modifies this`callBackSpb, this`view, this`height, this`taken, this`spbInstances, this`owned
      ensures Valid() && fresh(owned - old(owned))
      ensures var r := FinishScan(cfg, id, OnCallBack(old(Model()), view), ready); Alike(r.0, Model()) && out == r.1
    {
      hide Valid; hide Advance; hide FinishScan; hide Alike; hide InstanceAt; hide Instances;
      OwnsNotItself();
      ghost var before := Model();
      callBackSpb := callBackSpb - multiset{view};
      assert Model() == before.(callBack := callBackSpb);
      out := AdvanceView(view, H2, ready);
    }
  }

  lemma RoutedTwice(nd: Node, k: Key, d: Spb.Delivery)
    ensures var mid := nd.(instances := nd.instances[k := InstanceAt(nd, k)]);
      mid.(instances := mid.instances[k := Spb.Deliver(mid.instances[k], d)])
        == nd.(instances := nd.instances[k := Spb.Deliver(InstanceAt(nd, k), d)])
  {
    hide Spb.Deliver; hide InstanceAt;
  }

  lemma AlikeAt(nd: Node, nd': Node, k: Key)
    requires Alike(nd, nd')
    ensures InstanceAt(nd', k) == InstanceAt(nd, k)
  {
  }
}
