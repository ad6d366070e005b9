/** The leader election: one aggregator of coin shares per view. */
module Elector {
  import opened Blocks
  import opened Quorum

  type Byte = b: nat | b < 256

  /** The first four bytes of a combined threshold signature. */
  datatype Signature = Signature(b0: Byte, b1: Byte, b2: Byte, b3: Byte) {
    function At(i: nat): Byte
      requires i < 4
    {
      if i == 0 then b0 else if i == 1 then b1 else if i == 2 then b2 else b3
    }
  }

  /** The combined signature of a view; `None` when combining the shares fails.  It is a function of
      the view because the shares of a view all sign the same digest. */
  type Coin = nat -> Option<Signature>

  /** The four bytes read as a big-endian number. */
  function BigEndian(s: Signature): nat {
    s.b0 * 0x1000000 + s.b1 * 0x10000 + s.b2 * 0x100 + s.b3
  }

  datatype Aggregator = Aggregator(elects: seq<NodeId>, used: set<NodeId>)

  datatype State = State(leaders: map<nat, NodeId>, aggregators: map<nat, Aggregator>)

  const INIT := State(map[], map[])

  datatype Verdict = Leader(id: NodeId) | NoLeader | UsedElect | CombineFailed

  function AggregatorOf(s: State, view: nat): Aggregator {
    if view in s.aggregators then s.aggregators[view] else Aggregator([], {})
  }

  function Append(a: Aggregator, n: nat, coin: Coin, author: NodeId, view: nat): (Aggregator, Verdict)
    requires n >= 1
  {
    if author in a.used then (a, UsedElect)
    else
      var a' := Aggregator(a.elects + [author], a.used + {author});
      if |a'.elects| == High(n) then
        match coin(view)
        case None => (a', CombineFailed)
        case Some(sig) => (a', Leader(BigEndian(sig) % n))
      else (a', NoLeader)
  }

  function AddElect(s: State, n: nat, coin: Coin, author: NodeId, view: nat): (State, Verdict)
    requires n >= 1
  {
    var (a, verdict) := Append(AggregatorOf(s, view), n, coin, author, view);
    var leaders := if verdict.Leader? then s.leaders[view := verdict.id] else s.leaders;
    (State(leaders, s.aggregators[view := a]), verdict)
  }

  /** The leader that the coin of a view elects. */
  function LeaderOf(n: nat, coin: Coin, view: nat): (leader: Option<NodeId>)
    requires n >= 1
    ensures leader.Some? ==> leader.value < n
  {
    match coin(view)
    case None => None
    case Some(sig) => Some(BigEndian(sig) % n)
  }

  /** Shares of distinct authors, and a leader only from a quorum of them. */
  ghost predicate Sound(s: State, n: nat) {
    forall view: nat ::
      var a := AggregatorOf(s, view);
      |a.elects| == |a.used| && (view in s.leaders ==> |a.used| >= High(n))
  }

  /** A leader is announced once per view, and is the one the coin elects. */
  lemma AddElectSound(s: State, n: nat, coin: Coin, author: NodeId, view: nat, s': State, verdict: Verdict)
    requires n >= 1 && Sound(s, n) && (s', verdict) == AddElect(s, n, coin, author, view)
    ensures Sound(s', n) && forall w :: w in s.leaders ==> w in s'.leaders
    ensures verdict.Leader? ==> view !in s.leaders && view in s'.leaders && LeaderOf(n, coin, view) == Some(verdict.id)
    ensures !verdict.Leader? ==> s'.leaders == s.leaders
  {
    forall w: nat ensures
      var a := AggregatorOf(s', w);
      |a.elects| == |a.used| && (w in s'.leaders ==> |a.used| >= High(n))
    {
      var a := AggregatorOf(s, w);
      assert |a.elects| == |a.used|;
    }
    var a := AggregatorOf(s, view);
    assert |a.elects| == |a.used|;
  }

  /** A new share completes the election if and only if it is the last one missing. */
  lemma Share(s: State, n: nat, coin: Coin, author: NodeId, view: nat)
    requires n >= 1 && author !in AggregatorOf(s, view).used
    ensures var (s', verdict) := AddElect(s, n, coin, author, view);
      var a := AggregatorOf(s, view);
      && AggregatorOf(s', view) == Aggregator(a.elects + [author], a.used + {author})
      && (forall u: nat :: u != view ==> AggregatorOf(s', u) == AggregatorOf(s, u))
      && (verdict.Leader? <==> |a.elects| + 1 == High(n) && LeaderOf(n, coin, view).Some?)
      && (verdict.Leader? ==> LeaderOf(n, coin, view) == Some(verdict.id))
  {
    hide High; hide BigEndian;
  }

  // ----- Over every sequence of elect messages -----

  datatype Elect = Elect(author: NodeId, view: nat)

  /** The authors of the shares received for a view. */
  function Authors(es: seq<Elect>, view: nat): set<NodeId> {
    set e | e in es && e.view == view :: e.author
  }

  function After(n: nat, coin: Coin, es: seq<Elect>): State
    requires n >= 1
  {
    if es == [] then INIT
    else
      var k := |es| - 1;
      AddElect(After(n, coin, es[..k]), n, coin, es[k].author, es[k].view).0
  }

  /** The verdict on the last message of a sequence. */
  function LastVerdict(n: nat, coin: Coin, es: seq<Elect>): Verdict
    requires n >= 1 && es != []
  {
    var k := |es| - 1;
    AddElect(After(n, coin, es[..k]), n, coin, es[k].author, es[k].view).1
  }

  lemma AuthorsStep(es: seq<Elect>, e: Elect, view: nat)
    ensures Authors(es + [e], view) == Authors(es, view) + (if e.view == view then {e.author} else {})
  {
    forall a ensures a in Authors(es + [e], view) <==> a in Authors(es, view) || (e.view == view && a == e.author) {
      if a in Authors(es, view) {
        var x :| x in es && x.view == view && x.author == a;
        assert x in es + [e];
      }
      if e.view == view && a == e.author {
        assert e in es + [e];
      }
    }
  }

  /** An aggregator holds each author heard exactly once, and the view's leader is recorded exactly
      when a quorum of distinct authors has been heard and their shares combine. */
  ghost predicate Faithful(s: State, n: nat, coin: Coin, heard: set<NodeId>, view: nat)
    requires n >= 1
  {
    var a := AggregatorOf(s, view);
    && a.used == heard
    && |a.elects| == |heard|
    && (forall x :: x in a.elects <==> x in heard)
    && (view in s.leaders <==> |heard| >= High(n) && coin(view).Some?)
    && (view in s.leaders ==> s.leaders[view] == BigEndian(coin(view).value) % n)
  }

  lemma AddKeeps(s: State, n: nat, coin: Coin, heard: set<NodeId>, view: nat, author: NodeId)
    requires n >= 1 && Faithful(s, n, coin, heard, view)
    ensures Faithful(AddElect(s, n, coin, author, view).0, n, coin, heard + {author}, view)
  {
    if author in heard {
      assert heard + {author} == heard;
    } else {
      assert |heard + {author}| == |heard| + 1;
    }
  }

  lemma AddOtherView(s: State, n: nat, coin: Coin, heard: set<NodeId>, view: nat, author: NodeId, other: nat)
    requires n >= 1 && Faithful(s, n, coin, heard, view) && other != view
    ensures Faithful(AddElect(s, n, coin, author, other).0, n, coin, heard, view)
  {
  }

  /** After any sequence of messages. */
  lemma {:induction false} AfterAll(n: nat, coin: Coin, es: seq<Elect>, view: nat)
    requires n >= 1
    ensures Faithful(After(n, coin, es), n, coin, Authors(es, view), view)
  {
    if es != [] {
      hide Faithful; hide AddElect; hide Authors;
      var k := |es| - 1;
      AfterAll(n, coin, es[..k], view);
      assert es == es[..k] + [es[k]];
      AuthorsStep(es[..k], es[k], view);
      var s := After(n, coin, es[..k]);
      if es[k].view == view {
        AddKeeps(s, n, coin, Authors(es[..k], view), view, es[k].author);
      } else {
        assert Authors(es, view) == Authors(es[..k], view);
        AddOtherView(s, n, coin, Authors(es[..k], view), view, es[k].author, es[k].view);
      }
    }
  }

  /** A leader is announced exactly by the share that completes a quorum of distinct authors. */
  lemma LeaderOnQuorum(n: nat, coin: Coin, es: seq<Elect>)
    requires n >= 1 && es != []
    ensures var k := |es| - 1; var before := Authors(es[..k], es[k].view);
      && (LastVerdict(n, coin, es) == UsedElect <==> es[k].author in before)
      && (LastVerdict(n, coin, es).Leader? <==>
            es[k].author !in before && |before| + 1 == High(n) && coin(es[k].view).Some?)
      && (LastVerdict(n, coin, es).Leader? ==> LastVerdict(n, coin, es).id == BigEndian(coin(es[k].view).value) % n < n)
      && (LastVerdict(n, coin, es) == UsedElect ==> SameAggregators(After(n, coin, es), After(n, coin, es[..k])))
  {
    var k := |es| - 1;
    AfterAll(n, coin, es[..k], es[k].view);
  }

  ghost predicate SameAggregators(s: State, t: State) {
    s.leaders == t.leaders && forall view :: AggregatorOf(s, view) == AggregatorOf(t, view)
  }

  /** The share that makes the leader known completes the quorum, and after it no share does so again. */
  lemma LeaderNeedsQuorum(n: nat, coin: Coin, es: seq<Elect>, e: Elect)
    requires n >= 1
    ensures LastVerdict(n, coin, es + [e]).Leader? ==>
      |Authors(es + [e], e.view)| == High(n) == |Authors(es, e.view)| + 1
  {
    var all := es + [e];
    assert all[..|all| - 1] == es;
    LeaderOnQuorum(n, coin, all);
    AuthorsStep(es, e, e.view);
    hide Authors; hide LastVerdict; hide After;
    if LastVerdict(n, coin, all).Leader? {
      assert e.author !in Authors(es, e.view);
    }
  }

  /** At most one message of a sequence makes a view's leader known. */
  lemma OneLeaderPerView(n: nat, coin: Coin, es: seq<Elect>, i: nat, j: nat)
    requires n >= 1 && i < j < |es| && es[i].view == es[j].view
    requires LastVerdict(n, coin, es[..i + 1]).Leader?
    ensures !LastVerdict(n, coin, es[..j + 1]).Leader?
  {
    hide LastVerdict; hide Authors; hide High;
    var view := es[i].view;
    assert es[..i + 1] == es[..i] + [es[i]];
    assert es[..j + 1] == es[..j] + [es[j]];
    LeaderNeedsQuorum(n, coin, es[..i], es[i]);
    LeaderNeedsQuorum(n, coin, es[..j], es[j]);
    Later(es, i + 1, j, view);
  }

  lemma Later(es: seq<Elect>, i: nat, j: nat, view: nat)
    requires i <= j <= |es|
    ensures |Authors(es[..i], view)| <= |Authors(es[..j], view)|
  {
    assert es[..j] == es[..i] + es[i..j];
    AuthorsGrow(es[..i], es[i..j], view);
    SubsetSize(Authors(es[..i], view), Authors(es[..j], view));
  }

  lemma AuthorsGrow(es: seq<Elect>, fs: seq<Elect>, view: nat)
    ensures Authors(es, view) <= Authors(es + fs, view)
  {
  }

  /** Nodes that have heard different authors in different orders still agree on the leader. */
  lemma LeadersAgree(n: nat, coin: Coin, es: seq<Elect>, fs: seq<Elect>, view: nat)
    requires n >= 1 && view in After(n, coin, es).leaders && view in After(n, coin, fs).leaders
    ensures After(n, coin, es).leaders[view] == After(n, coin, fs).leaders[view] < n
  {
    AfterAll(n, coin, es, view);
    AfterAll(n, coin, fs, view);
  }

  /** Elector: the aggregators and leaders of a node, updated by each elect message. */
  class LeaderElector {
    const n: nat
    const coin: Coin
    var leaders: map<nat, NodeId>
    var aggregators: map<nat, Aggregator>

    ghost predicate Valid() {
      n >= 1
    }

    function Value(): State
      reads this
    {
      State(leaders, aggregators)
    }

    constructor (n: nat, coin: Coin)
      requires n >= 1
      ensures Valid() && this.n == n && this.coin == coin && Value() == After(n, coin, [])
    {
      this.n, this.coin := n, coin;
      leaders, aggregators := map[], map[];
    }

    method FoldBytes(sig: Signature) returns (leader: NodeId)
      requires Valid()
      ensures leader == BigEndian(sig) % n
    {
      var randint := 0;
      var i := 0;
      while i < 4
        invariant i <= 4
        invariant i == 0 ==> randint == 0
        invariant i == 1 ==> randint == sig.b0
        invariant i == 2 ==> randint == sig.b0 * 0x100 + sig.b1
        invariant i == 3 ==> randint == sig.b0 * 0x10000 + sig.b1 * 0x100 + sig.b2
        invariant i == 4 ==> randint == BigEndian(sig)
      {
        randint := randint * 0x100 + sig.At(i);
        i := i + 1;
      }
      leader := randint % n;
    }

    method Add(author: NodeId, view: nat) returns (verdict: Verdict)
      requires Valid()
      modifies this
      ensures (Value(), verdict) == AddElect(old(Value()), n, coin, author, view)
    {
      var a := if view in aggregators then aggregators[view] else Aggregator([], {});
      if author in a.used {
        verdict := UsedElect;
      } else {
        a := Aggregator(a.elects + [author], a.used + {author});
        verdict := NoLeader;
        if |a.elects| == High(n) {
          var sig := coin(view);
          if sig.None? {
            verdict := CombineFailed;
          } else {
            var leader := FoldBytes(sig.value);
            verdict := Leader(leader);
          }
        }
      }
      aggregators := aggregators[view := a];
      if verdict.Leader? {
        leaders := leaders[view := verdict.id];
      }
    }
  }
}
