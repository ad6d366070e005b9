/** The vote counters of the core count distinct nodes. */
module DagCounters {
  import opened Blocks
  import opened DagNode
  import opened DagInvariant

  ghost predicate HasKey(refs: seq<BlockQc>, k: Key) {
    exists q :: q in refs && Key(q.view, q.proposer) == k
  }

  lemma HasKeyStep(refs: seq<BlockQc>, q: BlockQc, k: Key)
    ensures HasKey(refs + [q], k) <==> HasKey(refs, k) || Key(q.view, q.proposer) == k
  {
    if HasKey(refs, k) {
      var r :| r in refs && Key(r.view, r.proposer) == k;
      assert r in refs + [q];
    }
    assert q in refs + [q];
  }

  lemma NotBefore(refs: seq<BlockQc>, q: BlockQc)
    requires Increasing(refs + [q])
    ensures Increasing(refs) && !HasKey(refs, Key(q.view, q.proposer))
  {
    var all := refs + [q];
    assert forall i, j :: 0 <= i < j < |refs| ==> refs[i] == all[i] && refs[j] == all[j];
    forall i | 0 <= i < |refs| ensures refs[i].proposer < q.proposer {
      assert all[i].proposer < all[|refs|].proposer;
    }
  }

  lemma {:induction false} AddWeakVotesCount(weak: map<Key, nat>, refs: seq<BlockQc>, k: Key)
    requires Increasing(refs)
    ensures Count(AddWeakVotes(weak, refs), k) == Count(weak, k) + (if HasKey(refs, k) then 1 else 0)
  {
    if refs != [] {
      var init, q := refs[..|refs| - 1], refs[|refs| - 1];
      assert refs == init + [q];
      NotBefore(init, q);
      HasKeyStep(init, q, k);
      hide HasKey; hide Increasing;
      AddWeakVotesCount(weak, init, k);
    }
  }

  /** A height-2 block adds its author to the voters of exactly the proposers it references. */
  lemma WeakVotersStep(n: nat, got: set<Msg>, b: Block, view: nat, p: NodeId)
    requires b.author < n
    ensures WeakVoters(n, got + {ProposeMsg(b)}, view, p)
         == WeakVoters(n, got, view, p) + (if b.height.H2? && b.view == view && Mentions(b, p) then {b.author} else {})
  {
    var got' := got + {ProposeMsg(b)};
    forall a ensures Refers(got', a, view, p) <==>
      Refers(got, a, view, p) || (a == b.author && b.height.H2? && b.view == view && Mentions(b, p))
    {
      if Refers(got, a, view, p) {
        var c :| ProposeMsg(c) in got && c.author == a && c.view == view && c.height.H2? && Mentions(c, p);
        assert ProposeMsg(c) in got';
      }
      if a == b.author && b.height.H2? && b.view == view && Mentions(b, p) {
        assert ProposeMsg(b) in got';
      }
    }
  }

  lemma WeakVotesStep(cfg: Config, nd: Node, nd': Node, sent: set<Msg>, b: Block)
    requires WeakVotesOk(cfg, nd) && b.author < cfg.n && RefsOk(cfg, sent, b)
    requires nd'.weakVotes == if b.height.H2? then AddWeakVotes(nd.weakVotes, b.references) else nd.weakVotes
    requires nd'.got == nd.got + {ProposeMsg(b)}
    requires forall c :: ProposeMsg(c) in nd.got ==> !SamePosition(b, c)
    ensures WeakVotesOk(cfg, nd')
  {
    forall k: Key ensures Count(nd'.weakVotes, k) == |WeakVoters(cfg.n, nd'.got, k.view, k.node)| {
      WeakVotersStep(cfg.n, nd.got, b, k.view, k.node);
      if b.height.H2? {
        AddWeakVotesCount(nd.weakVotes, b.references, k);
        assert HasKey(b.references, k) <==> b.view == k.view && Mentions(b, k.node) by {
          ReferencedView(cfg, sent, b, k);
        }
        assert b.view == k.view ==> b.author !in WeakVoters(cfg.n, nd.got, k.view, k.node);
      }
    }
  }

  lemma ReferencedView(cfg: Config, sent: set<Msg>, b: Block, k: Key)
    requires RefsOk(cfg, sent, b) && b.height.H2?
    ensures HasKey(b.references, k) <==> b.view == k.view && Mentions(b, k.node)
  {
    hide Certified;
    if b.view == k.view && Mentions(b, k.node) {
      var q :| q in b.references && q.proposer == k.node;
      assert Key(q.view, q.proposer) == k;
    }
  }

  lemma SpeedTargetsStep(n: nat, got: set<Msg>, sv: SpeedVoteMsg, view: nat, a: NodeId)
    requires sv.proposer < n
    ensures SpeedTargets(n, got + {SpeedVoting(sv)}, view, a)
         == SpeedTargets(n, got, view, a) + (if sv.view == view && sv.author == a then {sv.proposer} else {})
  {
    var got' := got + {SpeedVoting(sv)};
    forall p ensures SpedFor(got', a, view, p) <==>
      SpedFor(got, a, view, p) || (p == sv.proposer && sv.view == view && sv.author == a)
    {
      if SpedFor(got, a, view, p) {
        var u :| SpeedVoting(u) in got && u.author == a && u.view == view && u.proposer == p;
        assert SpeedVoting(u) in got';
      }
      if p == sv.proposer && sv.view == view && sv.author == a {
        assert SpeedVoting(sv) in got';
      }
    }
  }

  lemma SpeedNumsStep(cfg: Config, nd: Node, nd': Node, sv: SpeedVoteMsg)
    requires SpeedNumsOk(cfg, nd) && sv.proposer < cfg.n
    requires var a := Key(sv.view, sv.author);
      nd'.speedVoteNums == nd.speedVoteNums[a := Count(nd.speedVoteNums, a) + 1]
    requires nd'.got == nd.got + {SpeedVoting(sv)}
    requires forall u :: SpeedVoting(u) in nd.got ==>
      !(u.author == sv.author && u.view == sv.view && u.proposer == sv.proposer)
    ensures SpeedNumsOk(cfg, nd')
  {
    forall k: Key ensures Count(nd'.speedVoteNums, k) == |SpeedTargets(cfg.n, nd'.got, k.view, k.node)| {
      SpeedTargetsStep(cfg.n, nd.got, sv, k.view, k.node);
      if k == Key(sv.view, sv.author) {
        assert sv.proposer !in SpeedTargets(cfg.n, nd.got, k.view, k.node);
      }
    }
  }

  /** A proposal does not change speed votes, and a speed vote does not change weak votes. */
  lemma SpeedNumsFrame(cfg: Config, nd: Node, nd': Node, m: Msg)
    requires SpeedNumsOk(cfg, nd) && nd'.speedVoteNums == nd.speedVoteNums && nd'.got == nd.got + {m} && !m.SpeedVoting?
    ensures SpeedNumsOk(cfg, nd')
  {
    forall k: Key ensures SpeedTargets(cfg.n, nd'.got, k.view, k.node) == SpeedTargets(cfg.n, nd.got, k.view, k.node) {
      forall p ensures SpedFor(nd'.got, k.node, k.view, p) == SpedFor(nd.got, k.node, k.view, p) { }
    }
  }

  lemma WeakVotesFrame(cfg: Config, nd: Node, nd': Node, m: Msg)
    requires WeakVotesOk(cfg, nd) && nd'.weakVotes == nd.weakVotes && nd'.got == nd.got + {m} && !m.ProposeMsg?
    ensures WeakVotesOk(cfg, nd')
  {
    forall k: Key ensures WeakVoters(cfg.n, nd'.got, k.view, k.node) == WeakVoters(cfg.n, nd.got, k.view, k.node) {
      forall a ensures Refers(nd'.got, a, k.view, k.node) == Refers(nd.got, a, k.view, k.node) { }
    }
  }
}
