/**
  The lean protocol as a transition system: `n` nodes and a network that may delay, reorder or drop packets but
  hands each one over at most once.  Nodes with an identifier below `faults` stay silent.
 */
module LeanSystem {
  import opened Blocks
  import opened LeanNode

  datatype Packet = Packet(to: NodeId, m: Msg)

  datatype System = System(nodes: seq<Node>, sent: set<Msg>, net: multiset<Packet>)

  function Initial(cfg: Config): System {
    System(seq(cfg.n, _ => INIT), {}, multiset{})
  }

  /** Votes and speed votes go to the proposer only, coin messages to everyone else; the sender's own copy of
      anything else goes through its receive channel. */
  predicate Addressed(m: Msg, i: NodeId) {
    match m
    case VoteOf(v) => v.proposer == i
    case SpeedOf(sv) => sv.proposer == i
    case CoinMsg(_, author, _) => author != i
    case _ => true
  }

  /** One packet per addressee. */
  function Packets(n: nat, m: Msg): (ps: multiset<Packet>)
    ensures forall p :: ps[p] == if p.m == m && p.to < n && Addressed(m, p.to) then 1 else 0
  {
    if n == 0 then multiset{}
    else Packets(n - 1, m) + (if Addressed(m, n - 1) then multiset{Packet(n - 1, m)} else multiset{})
  }

  datatype Move = Local(i: NodeId, e: Event) | Drop(p: Packet)

  predicate CanMove(cfg: Config, g: System, mv: Move) {
    match mv
    case Local(i, e) =>
      && cfg.n >= 1 && cfg.faults <= i < cfg.n == |g.nodes|
      && Enabled(g.nodes[i], e)
      && (e.Handle? ==> Packet(i, e.m) in g.net)
    case Drop(p) => p in g.net
  }

  function Apply(cfg: Config, g: System, mv: Move): System
    requires CanMove(cfg, g, mv)
  {
    match mv
    case Drop(p) => g.(net := g.net - multiset{p})
    case Local(i, e) =>
      var (nd, out) := Step(cfg, i, g.nodes[i], e);
      var net := if e.Handle? then g.net - multiset{Packet(i, e.m)} else g.net;
      match out
      case None => System(g.nodes[i := nd], g.sent, net)
      case Some(m) => System(g.nodes[i := nd], g.sent + {m}, net + Packets(cfg.n, m))
  }

  ghost predicate Next(cfg: Config, g: System, g': System) {
    exists mv :: CanMove(cfg, g, mv) && g' == Apply(cfg, g, mv)
  }

  /** A run of the protocol from the initial state. */
  ghost predicate IsRun(cfg: Config, run: seq<System>) {
    && cfg.n >= 1
    && |run| >= 1 && run[0] == Initial(cfg)
    && forall t :: 0 <= t < |run| - 1 ==> Next(cfg, run[t], run[t + 1])
  }
}
