/**
  The broadcast instance as an object: the fields of BigSPB and DAGBigSPB, updated in place.  Each method
  is one mutex-protected section or one atomic operation; `model` is the instance of the transition
  system, and every method is one step of it.  What a section starts with `go` is returned.
 */
module SpbObject {
  import opened Blocks
  import Spb

  function Index(h: Height): (i: nat)
    ensures i < 2
  {
    Rank(h)
  }

  /** QCLEvel */
  function LevelOf(x: Spb.Instance): (Level, Option<BlockQc>) {
    if x.lo.qc.Some? && x.hi.qc.Some? then (Level2, x.hi.qc)
    else if x.lo.qc.Some? then (Level1, x.lo.qc)
    else (Level0, x.preQc)
  }

  // ----- Sections of one height -----

  lemma RunsReplay(x: Spb.Instance, high: nat, b: Block)
    requires Spb.Pending(x, Spb.Replay(b))
    ensures var y := Spb.Run(x, high, Spb.Replay(b));
      && y.At(b.height) == (if b.height.H1? then Spb.ReplayVotes(x.lo, b) else Spb.ReplayVotes(x.hi, b))
      && (b.height.H1? ==> y == x.(lo := y.lo, hi := x.hi.(onPropose := x.hi.onPropose + multiset(x.unHandlePropose))))
      && (b.height.H2? ==> y == x.(hi := y.hi))
  {
  }

  lemma RunsVote(x: Spb.Instance, high: nat, v: VoteMsg)
    requires Spb.Pending(x, Spb.OnVote(v))
    ensures Spb.Run(x, high, Spb.OnVote(v)) == x.With(v.height, Spb.CheckVote(x.At(v.height), v))
  {
  }

  lemma RunsCount(x: Spb.Instance, high: nat, v: VoteMsg)
    requires Spb.Pending(x, Spb.CountVote(v))
    ensures var y := Spb.Run(x, high, Spb.CountVote(v)); var s := x.At(v.height); var s' := y.At(v.height);
      && y == x.With(v.height, s')
      && s'.hash == s.hash && s'.qc == s.qc && s'.unHandleVote == s.unHandleVote && s'.voteNums == s.voteNums + 1
      && s'.storeQc == if s'.voteNums == high then s.storeQc + multiset{BlockQc(x.view, v.height, v.proposer, v.hash)}
        else s.storeQc
  {
  }

  class SpbInstance {
    const variant: Spb.Variant
    const proposer: NodeId
    const view: nat
    const high: nat

    var preQc: Option<BlockQc>
    const blockHash: array<Digest>
    const blockQcs: array<Option<BlockQc>>
    var unHandlePropose: seq<Block>
    const unHandleVote: array<seq<VoteMsg>>
    var unHandleSpeedVote: seq<SpeedVoteMsg>
    const voteNums: array<nat>
    var speedVoteNums: nat
    var isSpeedCert: bool

    ghost var model: Spb.Instance

    ghost function Repr(): set<object> {
      {this, blockHash, blockQcs, unHandleVote, voteNums}
    }

    ghost predicate Valid()
      reads Repr()
    {
      && blockHash.Length == 2 && blockQcs.Length == 2 && unHandleVote.Length == 2 && voteNums.Length == 2
      && model.variant == variant && model.proposer == proposer && model.view == view
      && model.preQc == preQc && model.unHandlePropose == unHandlePropose
      && SlotIs(model.lo, 0) && SlotIs(model.hi, 1)
      && model.fast.unHandleSpeedVote == unHandleSpeedVote
      && model.fast.speedVoteNums == speedVoteNums && model.fast.isSpeedCert == isSpeedCert
    }

    ghost predicate SlotIs(s: Spb.Slot, i: nat)
      requires blockHash.Length == 2 && blockQcs.Length == 2 && unHandleVote.Length == 2 && voteNums.Length == 2
      requires i < 2
      reads Repr()
    {
      s.hash == blockHash[i] && s.qc == blockQcs[i] && s.unHandleVote == unHandleVote[i] && s.voteNums == voteNums[i]
    }

    constructor (variant: Spb.Variant, proposer: NodeId, view: nat, high: nat)
      ensures Valid() && model == Spb.Init(variant, proposer, view) && fresh(Repr())
      ensures this.proposer == proposer && this.view == view && this.high == high && this.variant == variant
    {
      this.variant, this.proposer, this.view, this.high := variant, proposer, view, high;
      preQc, unHandlePropose, unHandleSpeedVote, speedVoteNums, isSpeedCert := None, [], [], 0, false;
      blockHash := new Digest[2](_ => ZERO);
      blockQcs := new Option<BlockQc>[2](_ => None);
      unHandleVote := new seq<VoteMsg>[2](_ => []);
      voteNums := new nat[2](_ => 0);
      model := Spb.Init(variant, proposer, view);
    }

    /** `go` with one of the process methods: the goroutine is pending. */
    method Start(d: Spb.Delivery)
      requires Valid()
      modifies this`model
      ensures Valid() && model == Spb.Deliver(old(model), d)
    {
      model := Spb.Deliver(model, d);
    }

    // ----- processProposeMsg -----

    /** The section under hMutex; `accepted` unless the proposal was put aside. */
    method AcceptProposal(b: Block) returns (accepted: bool)
      requires Valid() && Spb.Pending(model, Spb.OnPropose(b))
      modifies this`preQc, this`unHandlePropose, this`model, blockHash
      ensures Valid() && model == Spb.Run(old(model), high, Spb.OnPropose(b))
      ensures accepted == !Spb.Parks(old(model), b)
    {
      model := Spb.Run(model, high, Spb.OnPropose(b));
      if b.height.H1? {
        preQc := b.qc;
        blockHash[0] := Hash(b);
      } else {
        if variant.Big? && blockHash[0] != Spb.ParentHash(b) {
          unHandlePropose := unHandlePropose + [b];
          return false;
        }
        blockHash[1] := Hash(b);
      }
      return true;
    }

    /** The section under uMutex: buffered proposals and votes are started again. */
    method ReplayBuffered(b: Block) returns (proposals: seq<Block>, votes: seq<VoteMsg>)
      requires Valid() && Spb.Pending(model, Spb.Replay(b))
      modifies this`model
      ensures Valid() && model == Spb.Run(old(model), high, Spb.Replay(b))
      ensures model.hi.onPropose == old(model).hi.onPropose + multiset(proposals)
      ensures model.At(b.height).onVote == old(model).At(b.height).onVote + multiset(votes)
    {
      hide Spb.Run;
      RunsReplay(model, high, b);
      proposals, votes := [], [];
      if b.height.H1? {
        for i := 0 to |unHandlePropose|
          invariant proposals == unHandlePropose[..i]
        {
          proposals := proposals + [unHandlePropose[i]];
        }
        assert proposals == unHandlePropose;
      }
      var waiting := unHandleVote[Index(b.height)];
      for i := 0 to |waiting|
        invariant votes == waiting[..i]
      {
        votes := votes + [waiting[i]];
      }
      assert votes == waiting;
      model := Spb.Run(model, high, Spb.Replay(b));
    }

    /** The vote is sent. */
    method SendVote(ghost b: Block)
      requires Valid() && Spb.Pending(model, Spb.SendVote(b))
      modifies this`model
      ensures Valid() && model == Spb.Run(old(model), high, Spb.SendVote(b))
    {
      model := Spb.Run(model, high, Spb.SendVote(b));
    }

    // ----- processVoteMsg -----

    /** The section under hMutex; `accepted` unless the vote was put aside. */
    method CheckVote(v: VoteMsg) returns (accepted: bool)
      requires Valid() && Spb.Pending(model, Spb.OnVote(v))
      modifies this`model, unHandleVote
      ensures Valid() && model == Spb.Run(old(model), high, Spb.OnVote(v))
      ensures accepted == (v.hash == old(model).At(v.height).hash)
    {
      hide Spb.Run;
      RunsVote(model, high, v);
      model := Spb.Run(model, high, Spb.OnVote(v));
      var i := Index(v.height);
      accepted := blockHash[i] == v.hash;
      if !accepted {
        unHandleVote[i] := unHandleVote[i] + [v];
      }
    }

    /** The atomic counter; the vote that completes the quorum forms the certificate. */
    method CountVote(v: VoteMsg) returns (qc: Option<BlockQc>)
      requires Valid() && Spb.Pending(model, Spb.CountVote(v))
      modifies this`model, voteNums
      ensures Valid() && model == Spb.Run(old(model), high, Spb.CountVote(v))
      ensures var was := old(model).At(v.height).storeQc;
        model.At(v.height).storeQc == (if qc.Some? then was + multiset{qc.value} else was)
    {
      hide Spb.Run;
      RunsCount(model, high, v);
      model := Spb.Run(model, high, Spb.CountVote(v));
      var i := Index(v.height);
      voteNums[i] := voteNums[i] + 1;
      qc := if voteNums[i] == high then Some(BlockQc(view, v.height, v.proposer, v.hash)) else None;
    }

    /** The certificate is stored under hMutex. */
    method StoreQc(qc: BlockQc)
      requires Valid() && Spb.Pending(model, Spb.StoreQc(qc))
      modifies this`model, blockQcs
      ensures Valid() && model == Spb.Run(old(model), high, Spb.StoreQc(qc))
    {
      model := Spb.Run(model, high, Spb.StoreQc(qc));
      blockQcs[Index(qc.height)] := Some(qc);
    }

    /** The callback, the height-2 proposal or the speed vote goes out. */
    method Announce(ghost qc: BlockQc)
      requires Valid() && Spb.Pending(model, Spb.Announce(qc))
      modifies this`model
      ensures Valid() && model == Spb.Run(old(model), high, Spb.Announce(qc))
    {
      model := Spb.Run(model, high, Spb.Announce(qc));
    }

    /** The section under uMutex: buffered speed votes are started again. */
    method ReplaySpeedVotes() returns (svs: seq<SpeedVoteMsg>)
      requires Valid() && Spb.Pending(model, Spb.ReplaySpeed)
      modifies this`model
      ensures Valid() && model == Spb.Run(old(model), high, Spb.ReplaySpeed)
      ensures model.fast.onSpeed == old(model).fast.onSpeed + multiset(svs)
    {
      svs := [];
      for i := 0 to |unHandleSpeedVote|
        invariant svs == unHandleSpeedVote[..i]
      {
        svs := svs + [unHandleSpeedVote[i]];
      }
      assert svs == unHandleSpeedVote;
      model := Spb.Run(model, high, Spb.ReplaySpeed);
    }

    // ----- processSpeedVoteMsg -----

    /** The filter and the section under hMutex. */
    method CheckSpeedVote(sv: SpeedVoteMsg) returns (accepted: bool)
      requires Valid() && Spb.Pending(model, Spb.OnSpeed(sv))
      modifies this`model, this`unHandleSpeedVote
      ensures Valid() && model == Spb.Run(old(model), high, Spb.OnSpeed(sv))
      ensures accepted == (Spb.ForUs(old(model), sv) && old(model).hi.qc.Some?)
    {
      model := Spb.Run(model, high, Spb.OnSpeed(sv));
      if sv.proposer != proposer || sv.view != view {
        return false;
      }
      if blockQcs[1].None? {
        unHandleSpeedVote := unHandleSpeedVote + [sv];
        return false;
      }
      return true;
    }

    /** The atomic counter. */
    method CountSpeedVote(sv: SpeedVoteMsg) returns (full: bool)
      requires Valid() && Spb.Pending(model, Spb.CountSpeed(sv))
      modifies this`model, this`speedVoteNums
      ensures Valid() && model == Spb.Run(old(model), high, Spb.CountSpeed(sv))
      ensures model.fast.storeCert == old(model).fast.storeCert + (if full then 1 else 0)
    {
      model := Spb.Run(model, high, Spb.CountSpeed(sv));
      speedVoteNums := speedVoteNums + 1;
      full := speedVoteNums == high;
    }

    method StoreCert()
      requires Valid() && Spb.Pending(model, Spb.StoreCert)
      modifies this`model, this`isSpeedCert
      ensures Valid() && model == Spb.Run(old(model), high, Spb.StoreCert)
    {
      model := Spb.Run(model, high, Spb.StoreCert);
      isSpeedCert := true;
    }

    // ----- Reads -----

    /** BlockHash */
    function HashAt(h: Height): (d: Digest)
      requires Valid()
      reads Repr()
      ensures d == model.At(h).hash
    {
      blockHash[Index(h)]
    }

    /** GetBlockQC */
    function QcAt(h: Height): (qc: Option<BlockQc>)
      requires Valid()
      reads Repr()
      ensures qc == model.At(h).qc
    {
      blockQcs[Index(h)]
    }

    /** QCLEvel */
    function QcLevel(): (r: (Level, Option<BlockQc>))
      requires Valid()
      reads Repr()
      ensures r == LevelOf(model)
    {
      if blockQcs[0].Some? && blockQcs[1].Some? then (Level2, blockQcs[1])
      else if blockQcs[0].Some? then (Level1, blockQcs[0])
      else (Level0, preQc)
    }
  }
}
