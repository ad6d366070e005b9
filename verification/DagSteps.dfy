/** Every event of a node keeps the invariant of that node. */
module DagSteps {
  import opened Blocks
  import opened Quorum
  import opened DagNode
  import opened DagInvariant
  import opened DagFrame
  import Spb
  import SpbInvariant
  import SpbOrder
  import opened SpbGrowth

  // ----- One instance changes -----

  lemma UpdateInstance(cfg: Config, nd: Node, nd': Node, k: Key, y: Spb.Instance)
    requires InstancesOk(cfg, nd) && InstanceOk(cfg, k, y) && Grows(InstanceAt(nd, k), y)
    requires nd'.instances == nd.instances[k := y]
    requires nd'.view == nd.view && nd'.height == nd.height && (nd.started ==> nd'.started) && nd.got <= nd'.got
    ensures InstancesOk(cfg, nd') && NodeGrows(nd, nd')
  {
    hide InstanceOk;
    forall c: Key ensures InstanceOk(cfg, c, InstanceAt(nd', c)) && Grows(InstanceAt(nd, c), InstanceAt(nd', c)) {
      if c == k {
        assert InstanceAt(nd', c) == y;
      } else {
        assert InstanceAt(nd', c) == InstanceAt(nd, c);
        assert InstanceOk(cfg, c, InstanceAt(nd, c));
      }
    }
  }

  lemma DeliverOk(cfg: Config, k: Key, x: Spb.Instance, y: Spb.Instance, d: Spb.Delivery)
    requires InstanceOk(cfg, k, x) && Spb.Deliverable(x, d) && y == Spb.Deliver(x, d)
    ensures InstanceOk(cfg, k, y) && Grows(x, y)
  {
    SpbInvariant.DeliverKeeps(x, y, High(cfg.n), d);
    DeliverGrows(x, y, d);
    hide SpbInvariant.Inv;
  }

  lemma RunOk(cfg: Config, k: Key, x: Spb.Instance, y: Spb.Instance, t: Spb.Task)
    requires InstanceOk(cfg, k, x) && Spb.Pending(x, t) && y == Spb.Run(x, High(cfg.n), t)
    ensures InstanceOk(cfg, k, y) && Grows(x, y)
  {
    SpbInvariant.RunKeeps(x, y, High(cfg.n), t);
    RunGrows(x, y, High(cfg.n), t);
    hide SpbInvariant.Inv; hide Spb.Run; hide Spb.Pending;
  }

  // ----- Histories -----

  lemma AddProposal(k: Key, lo: Option<Block>, hi: Option<Block>, got: set<Msg>, b: Block)
    requires ProposalHistory(k, lo, hi, got) && Key(b.view, b.author) == k && (if b.height.H1? then lo else hi).None?
    ensures ProposalHistory(k, if b.height.H1? then Some(b) else lo, if b.height.H2? then Some(b)
      else hi, got + {ProposeMsg(b)})
  {
  }

  lemma AddVote(k: Key, lo: multiset<VoteMsg>, hi: multiset<VoteMsg>, got: set<Msg>, v: VoteMsg)
    requires VoteHistory(k, lo, hi, got) && Key(v.view, v.proposer) == k && Voting(v) !in got
    ensures VoteHistory(k, if v.height.H1? then lo + multiset{v} else lo, if v.height.H2? then hi + multiset{v}
      else hi, got + {Voting(v)})
  {
  }

  /** Messages of another kind do not matter. */
  lemma ProposalHistoryFrame(k: Key, lo: Option<Block>, hi: Option<Block>, got: set<Msg>, m: Msg)
    requires ProposalHistory(k, lo, hi, got) && (m.ProposeMsg? ==> Key(m.b.view, m.b.author) != k)
    ensures ProposalHistory(k, lo, hi, got + {m})
  {
  }

  lemma VoteHistoryFrame(k: Key, lo: multiset<VoteMsg>, hi: multiset<VoteMsg>, got: set<Msg>, m: Msg)
    requires VoteHistory(k, lo, hi, got) && (m.Voting? ==> Key(m.v.view, m.v.proposer) != k)
    ensures VoteHistory(k, lo, hi, got + {m})
  {
  }

  lemma SpeedHistoryFrame(k: Key, speedVotes: multiset<SpeedVoteMsg>, got: set<Msg>, m: Msg)
    requires SpeedHistory(k, speedVotes, got) && (m.SpeedVoting? ==> Key(m.sv.view, m.sv.proposer) != k)
    ensures SpeedHistory(k, speedVotes, got + {m})
  {
  }

  lemma DeliverProposalHistory(k: Key, x: Spb.Instance, y: Spb.Instance, got: set<Msg>, b: Block)
    requires KeyHistory(k, x, got) && Key(b.view, b.author) == k && x.At(b.height).proposal.None?
    requires y == Spb.Deliver(x, Spb.Proposal(b))
    ensures KeyHistory(k, y, got + {ProposeMsg(b)})
  {
    hide ProposalHistory; hide VoteHistory; hide SpeedHistory;
    AddProposal(k, x.lo.proposal, x.hi.proposal, got, b);
    VoteHistoryFrame(k, x.lo.votes, x.hi.votes, got, ProposeMsg(b));
    SpeedHistoryFrame(k, x.fast.speedVotes, got, ProposeMsg(b));
  }

  lemma DeliverVoteHistory(k: Key, x: Spb.Instance, y: Spb.Instance, got: set<Msg>, v: VoteMsg)
    requires KeyHistory(k, x, got) && Key(v.view, v.proposer) == k && Voting(v) !in got
    requires y == Spb.Deliver(x, Spb.Vote(v))
    ensures KeyHistory(k, y, got + {Voting(v)})
  {
    hide ProposalHistory; hide VoteHistory; hide SpeedHistory;
    ProposalHistoryFrame(k, x.lo.proposal, x.hi.proposal, got, Voting(v));
    AddVote(k, x.lo.votes, x.hi.votes, got, v);
    SpeedHistoryFrame(k, x.fast.speedVotes, got, Voting(v));
  }

  lemma DeliverSpeedHistory(k: Key, x: Spb.Instance, y: Spb.Instance, got: set<Msg>, sv: SpeedVoteMsg)
    requires KeyHistory(k, x, got) && Key(sv.view, sv.proposer) == k && SpeedVoting(sv) !in got
    requires y == Spb.Deliver(x, Spb.SpeedVote(sv))
    ensures KeyHistory(k, y, got + {SpeedVoting(sv)})
  {
    hide ProposalHistory; hide VoteHistory;
    ProposalHistoryFrame(k, x.lo.proposal, x.hi.proposal, got, SpeedVoting(sv));
    VoteHistoryFrame(k, x.lo.votes, x.hi.votes, got, SpeedVoting(sv));
  }

  lemma RunHistory(k: Key, x: Spb.Instance, y: Spb.Instance, got: set<Msg>, high: nat, t: Spb.Task)
    requires KeyHistory(k, x, got) && Spb.Pending(x, t) && y == Spb.Run(x, high, t)
    ensures KeyHistory(k, y, got)
  {
    hide Spb.Run; hide Spb.Pending; hide ProposalHistory; hide VoteHistory; hide SpeedHistory;
    SpbOrder.RunFrame(x, y, high, t);
  }

  /** The instance a message belongs to. */
  function KeyOf(m: Msg): Option<Key> {
    match m
    case ProposeMsg(b) => Some(Key(b.view, b.author))
    case Voting(v) => Some(Key(v.view, v.proposer))
    case SpeedVoting(sv) => Some(Key(sv.view, sv.proposer))
    case ElectMsg(_, _) => None
  }

  lemma OtherHistory(k: Key, x: Spb.Instance, got: set<Msg>, m: Msg)
    requires KeyHistory(k, x, got) && KeyOf(m) != Some(k)
    ensures KeyHistory(k, x, got + {m})
  {
    hide ProposalHistory; hide VoteHistory; hide SpeedHistory;
    ProposalHistoryFrame(k, x.lo.proposal, x.hi.proposal, got, m);
    VoteHistoryFrame(k, x.lo.votes, x.hi.votes, got, m);
    SpeedHistoryFrame(k, x.fast.speedVotes, got, m);
  }

  lemma UpdateHistory(nd: Node, nd': Node, k: Key, y: Spb.Instance, m: Msg)
    requires HistoryOk(nd) && KeyOf(m) == Some(k)
    requires nd'.instances == nd.instances[k := y] && nd'.got == nd.got + {m} && KeyHistory(k, y, nd'.got)
    ensures HistoryOk(nd')
  {
    hide KeyHistory;
    forall c: Key ensures KeyHistory(c, InstanceAt(nd', c), nd'.got) {
      if c != k {
        assert KeyHistory(c, InstanceAt(nd, c), nd.got);
        assert InstanceAt(nd', c) == InstanceAt(nd, c);
        OtherHistory(c, InstanceAt(nd, c), nd.got, m);
      }
    }
  }

  lemma TaskHistory(cfg: Config, nd: Node, nd': Node, k: Key, t: Spb.Task)
    requires HistoryOk(nd) && k in nd.instances && Spb.Pending(nd.instances[k], t)
    requires nd'.instances == nd.instances[k := Spb.Run(nd.instances[k], High(cfg.n), t)] && nd'.got == nd.got
    ensures HistoryOk(nd')
  {
    hide KeyHistory; hide Spb.Run; hide Spb.Pending;
    assert KeyHistory(k, InstanceAt(nd, k), nd.got);
    RunHistory(k, nd.instances[k], nd'.instances[k], nd.got, High(cfg.n), t);
    forall c: Key ensures KeyHistory(c, InstanceAt(nd', c), nd'.got) {
      if c != k {
        assert KeyHistory(c, InstanceAt(nd, c), nd.got);
        assert InstanceAt(nd', c) == InstanceAt(nd, c);
      }
    }
  }
}
