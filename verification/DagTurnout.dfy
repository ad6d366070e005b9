/** The DAG when no more than a quorum of its nodes run. */
module DagTurnout {
  import opened Blocks
  import opened Quorum
  import opened CommitLog
  import opened DagNode
  import opened DagSystem
  import opened DagInvariant
  import opened DagRuns
  import opened DagSafety
  import opened DagTheorems
  import Spb

  // ----- Silent nodes send nothing -----

  lemma OwnMessages(cfg: Config, id: NodeId, nd: Node, e: Event)
    requires cfg.n >= 1 && Enabled(nd, e)
    ensures var out := Step(cfg, id, nd, e).1; out.Some? ==> Sender(out.value) == id
  {
    hide Spb.Run; hide Spb.Pending; hide Hash; hide High; hide QcAt; hide InstanceAt; hide CoinStep; hide Enqueue;
  }

  lemma {:induction false} SendersRun(cfg: Config, run: seq<System>, t: nat, m: Msg)
    requires IsRun(cfg, run) && t < |run| && m in run[t].sent
    ensures cfg.faults <= Sender(m) < cfg.n
  {
    hide IsRun; hide Step; hide Enabled; hide Apply;
    NothingAtFirst(cfg, run);
    if t > 0 {
      if m in run[t - 1].sent {
        SendersRun(cfg, run, t - 1, m);
      } else {
        var mv := MoveOf(cfg, run, t - 1);
        NewMessage(cfg, run[t - 1], mv, run[t], m);
        OwnMessages(cfg, mv.i, run[t - 1].nodes[mv.i], mv.e);
      }
    }
  }

  lemma NothingAtFirst(cfg: Config, run: seq<System>)
    requires IsRun(cfg, run)
    ensures cfg.n >= 1 && |run| >= 1 && run[0].sent == {}
  {
    hide Next;
  }

  // ----- Every reference is needed -----

  /** With no more than 2f+1 running nodes every block above the first layer references all of them. */
  lemma AllReferenced(cfg: Config, run: seq<System>, t: nat, c: Block, p: NodeId) returns (r: Block)
    requires IsRun(cfg, run) && t < |run| && Present(cfg.n, cfg.faults) <= High(cfg.n) && cfg.faults <= p < cfg.n
    requires ProposeMsg(c) in run[t].sent && LayerOf(c) > 0
    ensures References1(run[t].sent, c, r) && r.author == p && LayerOf(r) + 1 == LayerOf(c)
  {
    hide IsRun; hide High; hide Present; hide Hash;
    LayeredDag(cfg, run, t);
    var a := Proposers(c.references);
    forall x | x in a ensures x in Between(cfg.faults, cfg.n) {
      var q :| q in c.references && q.proposer == x;
      var s :| Names(run[t].sent, q, s);
      SendersRun(cfg, run, t, ProposeMsg(s));
    }
    PresentSize(cfg.n, cfg.faults);
    if p !in a {
      SubsetSize(a + {p}, Between(cfg.faults, cfg.n));
    }
    var q :| q in c.references && q.proposer == p;
    r :| Names(run[t].sent, q, r);
  }

  /** So every block has every earlier block in its causal history. */
  lemma {:induction false} EverythingIsCovered(cfg: Config, run: seq<System>, t: nat, b: Block, c: Block)
    requires IsRun(cfg, run) && t < |run| && Present(cfg.n, cfg.faults) <= High(cfg.n)
    requires ProposeMsg(b) in run[t].sent && ProposeMsg(c) in run[t].sent && LayerOf(b) < LayerOf(c)
    ensures InHistory(run[t].sent, c, b)
    decreases LayerOf(c)
  {
    hide IsRun; hide Hash;
    SendersRun(cfg, run, t, ProposeMsg(b));
    var r := AllReferenced(cfg, run, t, c, b.author);
    if LayerOf(r) == LayerOf(b) {
      LayeredDag(cfg, run, t);
      SamePlace(r, b);
      assert r == b;
    } else {
      EverythingIsCovered(cfg, run, t, b, r);
    }
  }

  lemma SamePlace(b: Block, c: Block)
    requires LayerOf(b) == LayerOf(c)
    ensures b.view == c.view && b.height == c.height
  {
  }
}
