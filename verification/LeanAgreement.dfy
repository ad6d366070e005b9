/** Exactly when the decisions of the lean protocol agree. */
module LeanAgreement {
  import opened Blocks
  import opened Quorum
  import opened LeanNode
  import opened LeanSystem
  import opened LeanInvariant
  import opened LeanSteps
  import opened LeanRuns
  import opened LeanTheorems
  import opened LeanSafety
  import opened LeanRestarts
  import opened LeanTurnout
  import opened LeanDecisions
  import opened LeanSchedules
  import opened LeanViews
  import opened LeanReports
  import opened LeanPasses

  // ----- Through many views -----

  lemma EnteredEarlier(cfg: Config, past: seq<System>, now: seq<System>, g: System, view: nat, nil: bool)
    requires past <= now && Entered(cfg, now, g, view, nil)
    ensures Entered(cfg, past, g, view, false)
  {
    hide Reached; hide Awake; hide Ahead; hide Proposed;
    Earlier(cfg, past, now, g);
    forall i: NodeId | Runs(cfg, i) ensures Proposed(cfg, g, i, view, false) {
      ProposedAnyway(cfg, g, i, view, nil);
    }
  }

  /** There is a way through every view whose coin elects a leader. */
  lemma {:induction false} Travel(cfg: Config, past: seq<System>, g: System, view: nat, top: nat) returns (g': System)
    requires Entered(cfg, past, g, view, false) && view <= top && Turnout(cfg) >= High(cfg.n) && cfg.n >= 1
    requires forall u: nat :: view <= u < top ==> LeaderOf(cfg, u).Some?
    ensures Entered(cfg, past, g', top, false)
    decreases top - view
  {
    hide Entered; hide LeaderOf; hide High; hide Turnout; hide Decides;
    if view == top {
      g' := g;
    } else {
      var p := LeaderOf(cfg, view).value;
      LeaderIsNode(cfg, view);
      if p < cfg.faults {
        g' := PassSilent(cfg, past, g, view, p);
        EnteredEarlier(cfg, past, past, g', view + 1, true);
      } else {
        var now, h, _ := PassHeard(cfg, past, g, view, p);
        g' := h;
        EnteredEarlier(cfg, past, now, g', view + 1, false);
      }
      g' := Travel(cfg, past, g', view + 1, top);
    }
  }

  /** Every view can be reached if the coins of the views before it elect leaders. */
  lemma Arrive(cfg: Config, view: nat) returns (g: System)
    requires cfg.n >= 1 && Turnout(cfg) >= High(cfg.n) && forall u: nat :: u < view ==> LeaderOf(cfg, u).Some?
    ensures Entered(cfg, [], g, view, false)
  {
    assert High(cfg.n) >= 1;
    hide LeaderOf; hide High; hide Entered;
    var h := Opening(cfg);
    EnteredEarlier(cfg, [], [], h, 0, true);
    g := Travel(cfg, [], h, 0, view);
  }

  // ----- Decisions -----

  /** Some node decides `b` in the run. */
  ghost predicate Commits(run: seq<System>, b: Block) {
    exists s, i :: 0 <= s < |run| && Decides(run[s], i, b)
  }

  lemma CommitsIn(past: seq<System>, run: seq<System>, i: NodeId, b: Block)
    requires past <= run && |past| >= 1 && Decides(past[|past| - 1], i, b)
    ensures Commits(run, b)
  {
    hide Decides;
    assert run[|past| - 1] == past[|past| - 1];
  }

  /** A decision is backed by the leader's certificate. */
  lemma DecidesDecided(cfg: Config, run: seq<System>, s: nat, i: NodeId, b: Block)
    requires IsRun(cfg, run) && s < |run| && Decides(run[s], i, b)
    ensures cfg.n >= 1 && Decided(cfg, run[s].sent, b)
  {
    hide IsRun; hide NodeOk; hide SentOk; hide LeaderOf; hide Certified; hide InstancesOk; hide HistoryOk;
    hide OwnSentOk; hide CountersOk; hide StoreOk; hide InstanceAt; hide Hash;
    RunSent(cfg, run, s);
    RunNode(cfg, run, s, i);
    NodeParts(cfg, i, run[s].nodes[i], run[s].sent);
    HeldIsCertified(cfg, run, s, i, Key(b.view, b.author), H2);
    assert DecidedBy(cfg, run[s].sent, InstanceAt(run[s].nodes[i], Key(b.view, b.author)).hi.qc.value, b);
  }

  lemma CommitsDecided(cfg: Config, run: seq<System>, b: Block)
    requires IsRun(cfg, run) && Commits(run, b)
    ensures cfg.n >= 1 && |run| >= 1 && Decided(cfg, run[|run| - 1].sent, b) && b.height.H1?
  {
    hide IsRun; hide Decided;
    var s, i :| 0 <= s < |run| && Decides(run[s], i, b);
    DecidesDecided(cfg, run, s, i, b);
    SentGrows(cfg, run, s, |run| - 1);
    DecidedGrows(cfg, run[s].sent, run[|run| - 1].sent, b);
  }

  // ----- Views that were reached -----

  /** A view is left only if its coin elects a leader, and after a block was proposed in it. */
  lemma LeftView(cfg: Config, run: seq<System>, t: nat, c: Block) returns (b: Block)
    requires IsRun(cfg, run) && t < |run| && ProposeMsg(c) in run[t].sent && c.height.H1? && c.view > 0
    ensures cfg.n >= 1 && LeaderOf(cfg, c.view - 1).Some?
    ensures ProposeMsg(b) in run[t].sent && b.view == c.view - 1
  {
    hide IsRun; hide SentOk; hide Certified; hide Reporters; hide LeaderOf; hide High; hide Started; hide Ripe;
    RunSent(cfg, run, t);
    var sent := run[t].sent;
    MsgOf(cfg, sent, ProposeMsg(c));
    var r :| Justifies(cfg, sent, r, c);
    MsgOf(cfg, sent, ReportMsg(r));
    ViewsEndRipe(cfg, run, t, ReportMsg(r));
    b := RipeBlock(cfg, sent, r.view);
  }

  lemma RipeBlock(cfg: Config, sent: set<Msg>, view: nat) returns (b: Block)
    requires cfg.n >= 1 && SentOk(cfg, sent) && Ripe(cfg, sent, view)
    ensures ProposeMsg(b) in sent && b.view == view
  {
    assert High(cfg.n) >= 1;
    hide SentOk; hide Certified; hide High; hide Nodes;
    assert Finishers(cfg.n, sent, view) != {};
    var x :| x in Finishers(cfg.n, sent, view);
    var fv :| FinOf(fv) in sent && fv.author == x && fv.view == view;
    FinFacts(cfg, sent, fv);
    b := CertifiedBlock(cfg, sent, fv.qc);
  }

  lemma CertifiedBlock(cfg: Config, sent: set<Msg>, q: BlockQc) returns (b: Block)
    requires Certified(cfg, sent, q)
    ensures ProposeMsg(b) in sent && b.view == q.view && b.height == q.height && b.author == q.proposer
  {
    hide Hash;
    b :| Names(sent, q, b);
  }

  /** All coins of the views before a block's view elect leaders. */
  lemma {:induction false} CoinsBefore(cfg: Config, run: seq<System>, t: nat, c: Block, u: nat)
    requires IsRun(cfg, run) && t < |run| && ProposeMsg(c) in run[t].sent && u < c.view
    ensures cfg.n >= 1 && LeaderOf(cfg, u).Some?
    decreases LayerOf(c)
  {
    hide IsRun; hide SentOk; hide LeaderOf; hide Certified;
    RunSent(cfg, run, t);
    if c.height.H2? {
      SecondHasQc(cfg, run[t].sent, c);
      BlockQcEarlier(cfg, run[t].sent, c);
      var b := CertifiedBlock(cfg, run[t].sent, c.qc.value);
      CoinsBefore(cfg, run, t, b, u);
    } else {
      var b := LeftView(cfg, run, t, c);
      if u < c.view - 1 {
        CoinsBefore(cfg, run, t, b, u);
      }
    }
  }

  // ----- The exact condition -----

  /** Of any two decisions of a run, the one of the later view extends the other. */
  ghost predicate Agreement(cfg: Config) {
    forall run: seq<System>, b: Block, c: Block ::
      IsRun(cfg, run) && Commits(run, b) && Commits(run, c) && b.view <= c.view ==>
        |run| >= 1 && Extends(run[|run| - 1].sent, c, b)
  }

  ghost predicate Heard(cfg: Config, view: nat)
    requires cfg.n >= 1
  {
    LeaderOf(cfg, view).Some? && LeaderOf(cfg, view).value >= cfg.faults
  }

  /** Two views that can be reached and whose leaders run, and between which the chain can be lost: more than a
      quorum runs, or the coin elects a silent node. */
  ghost predicate Splits(cfg: Config, view: nat, top: nat)
    requires cfg.n >= 1
  {
    && view < top && (forall u: nat :: u < top ==> LeaderOf(cfg, u).Some?) && Heard(cfg, view) && Heard(cfg, top)
    && (Turnout(cfg) > High(cfg.n) || !HeardBetween(cfg, view, top))
  }

  /** The leader of `top` decides, and the run ends. */
  lemma Finish(cfg: Config, past: seq<System>, g: System, view: nat, top: nat) returns (run: seq<System>, c: Block)
    requires Entered(cfg, past, g, view, false) && view <= top && Turnout(cfg) >= High(cfg.n) && cfg.n >= 1
    requires (forall u: nat :: u < top ==> LeaderOf(cfg, u).Some?) && Heard(cfg, top)
    ensures IsRun(cfg, run) && past <= run && |run| >= 1 && Commits(run, c) && c.view == top
    ensures ProposeMsg(c) in run[|run| - 1].sent
  {
    hide LeaderOf; hide High; hide Turnout; hide Decides; hide Entered; hide IsRun; hide Commits; hide Decided;
    LeaderIsNode(cfg, top);
    var h := Travel(cfg, past, g, view, top);
    var now, g', b := PassHeard(cfg, past, h, top, LeaderOf(cfg, top).value);
    c := b;
    run := PinEntered(cfg, now, g', top + 1);
    CommitsIn(now, run, LeaderOf(cfg, top).value, c);
    CommitsDecided(cfg, run, c);
    DecidedSent(cfg, run[|run| - 1].sent, c);
  }

  lemma DecidedSent(cfg: Config, sent: set<Msg>, b: Block)
    requires cfg.n >= 1 && Decided(cfg, sent, b)
    ensures ProposeMsg(b) in sent
  {
    hide LeaderOf; hide Certified; hide Hash;
  }

  lemma PinEntered(cfg: Config, past: seq<System>, g: System, view: nat) returns (run: seq<System>)
    requires Entered(cfg, past, g, view, false)
    ensures IsRun(cfg, run) && past <= run && |run| >= 1
  {
    hide Reached; hide Awake; hide Ahead; hide Proposed; hide IsRun;
    run := Pin(cfg, past, g);
  }

  /** When more than a quorum runs, a leader's decision can be lost at once: a run with two decisions that do not
      extend each other, in any two views with running leaders. */
  lemma Fork(cfg: Config, view: nat, top: nat) returns (run: seq<System>, b: Block, c: Block)
    requires cfg.n >= 1 && Turnout(cfg) > High(cfg.n) && view < top && Heard(cfg, view) && Heard(cfg, top)
    requires forall u: nat :: u < top ==> LeaderOf(cfg, u).Some?
    ensures IsRun(cfg, run) && |run| >= 1 && Commits(run, b) && Commits(run, c) && b.view == view && c.view == top
    ensures !Extends(run[|run| - 1].sent, c, b)
  {
    hide LeaderOf; hide High; hide Turnout; hide Decides; hide Entered; hide IsRun; hide Commits; hide Extends;
    LeaderIsNode(cfg, view);
    var g := Arrive(cfg, view);
    var p := LeaderOf(cfg, view).value;
    var now, g1, o := PassFork(cfg, [], g, view, p);
    b := o;
    var past := PinNil(cfg, now, g1, view + 1);
    run, c := Finish(cfg, past, g1, view + 1, top);
    CommitsIn(now, run, p, b);
    NilForGood(cfg, past, run, g1, view + 1);
    RunSent(cfg, run, |run| - 1);
    hide SentOk; hide AllNil;
    NilViewBreaksChain(cfg, run[|run| - 1].sent, view, b, c);
  }

  /** The decision is lost already in the next view: every block there starts a new chain. */
  lemma ForkAtOnce(cfg: Config, view: nat) returns (run: seq<System>, b: Block, c: Block)
    requires cfg.n >= 1 && Turnout(cfg) > High(cfg.n) && Heard(cfg, view)
    requires forall u: nat :: u < view ==> LeaderOf(cfg, u).Some?
    ensures IsRun(cfg, run) && |run| >= 1 && Commits(run, b) && b.view == view
    ensures ProposeMsg(c) in run[|run| - 1].sent && c.view == view + 1 && !Extends(run[|run| - 1].sent, c, b)
  {
    assert Runs(cfg, cfg.faults);
    hide LeaderOf; hide High; hide Turnout; hide Decides; hide Entered; hide IsRun; hide Commits;
    LeaderIsNode(cfg, view);
    var g := Arrive(cfg, view);
    var p := LeaderOf(cfg, view).value;
    var now, g1, o := PassFork(cfg, [], g, view, p);
    b := o;
    run := PinNil(cfg, now, g1, view + 1);
    CommitsIn(now, run, p, b);
    c := First(cfg.faults, view + 1, None);
  }

  /** A silent leader makes the chain start anew: a run with a height-1 block without a certificate after its view. */
  lemma ChainRestarts(cfg: Config, view: nat) returns (run: seq<System>, c: Block)
    requires cfg.n >= 1 && Turnout(cfg) >= High(cfg.n) && SilentLeader(cfg, view)
    requires forall u: nat :: u < view ==> LeaderOf(cfg, u).Some?
    ensures IsRun(cfg, run) && |run| >= 1 && ProposeMsg(c) in run[|run| - 1].sent
    ensures c.height.H1? && c.view == view + 1 && c.qc.None?
  {
    assert Runs(cfg, cfg.faults) by { assert High(cfg.n) >= 1; }
    hide LeaderOf; hide High; hide Turnout; hide Entered; hide IsRun;
    var g := Arrive(cfg, view);
    var g1 := PassSilent(cfg, [], g, view, LeaderOf(cfg, view).value);
    run := PinNil(cfg, [], g1, view + 1);
    c := First(cfg.faults, view + 1, None);
  }

  lemma PinNil(cfg: Config, past: seq<System>, g: System, view: nat) returns (now: seq<System>)
    requires Entered(cfg, past, g, view, true)
    ensures IsRun(cfg, now) && past <= now && |now| >= 1 && now[|now| - 1] == g && Entered(cfg, now, g, view, false)
    ensures forall i: NodeId :: Runs(cfg, i) ==> ProposeMsg(First(i, view, None)) in g.sent
  {
    hide Reached; hide Awake; hide Ahead; hide IsRun;
    now := Pin(cfg, past, g);
    forall i: NodeId | Runs(cfg, i)
      ensures ProposeMsg(First(i, view, None)) in g.sent && Proposed(cfg, g, i, view, false)
    {
      ProposedAnyway(cfg, g, i, view, true);
      var qc :| OnItsWay(cfg, g, ProposeMsg(First(i, view, qc))) && qc.None?;
      Arrived(cfg, g, ProposeMsg(First(i, view, qc)));
    }
  }

  lemma NilForGood(cfg: Config, past: seq<System>, run: seq<System>, g: System, view: nat)
    requires IsRun(cfg, run) && past <= run && 1 <= |past| <= |run| && past[|past| - 1] == g
    requires forall i: NodeId :: Runs(cfg, i) ==> ProposeMsg(First(i, view, None)) in g.sent
    ensures AllNil(run[|run| - 1].sent, view)
  {
    hide IsRun; hide SentOk;
    var t := |run| - 1;
    var sent := run[t].sent;
    assert run[|past| - 1] == g;
    SentGrows(cfg, run, |past| - 1, t);
    RunSent(cfg, run, t);
    forall c | ProposeMsg(c) in sent && c.height.H1? && c.view == view ensures c.qc.None? {
      MsgOf(cfg, sent, ProposeMsg(c));
      assert Runs(cfg, c.author);
      OnlyBlock(cfg, sent, c, First(c.author, view, None));
    }
  }

  /** A silent leader cuts the chain in every run: a run with a decision before the silent leader's view and one
      after it. */
  lemma Restart(cfg: Config, view: nat, silent: nat, top: nat) returns (run: seq<System>, b: Block, c: Block)
    requires cfg.n >= 1 && Turnout(cfg) >= High(cfg.n) && view < silent < top && Heard(cfg, view) && Heard(cfg, top)
    requires SilentLeader(cfg, silent) && forall u: nat :: u < top ==> LeaderOf(cfg, u).Some?
    ensures IsRun(cfg, run) && |run| >= 1 && Commits(run, b) && Commits(run, c) && b.view == view && c.view == top
    ensures !Extends(run[|run| - 1].sent, c, b)
  {
    hide LeaderOf; hide High; hide Turnout; hide Decides; hide Entered; hide IsRun; hide Commits; hide SilentLeader;
    hide Extends;
    LeaderIsNode(cfg, view);
    var g := Arrive(cfg, view);
    var p := LeaderOf(cfg, view).value;
    var now, g1, o := PassHeard(cfg, [], g, view, p);
    b := o;
    run, c := Finish(cfg, now, g1, view + 1, top);
    CommitsIn(now, run, p, b);
    SilentLeaderBreaksChain(cfg, run, |run| - 1, silent, b, c);
  }

  /** Decisions of the same view agree in every run. */
  lemma AgreeInView(cfg: Config, run: seq<System>, b: Block, c: Block)
    requires IsRun(cfg, run) && Commits(run, b) && Commits(run, c) && b.view == c.view
    ensures |run| >= 1 && b == c && Extends(run[|run| - 1].sent, c, b)
  {
    hide IsRun; hide Commits; hide SentOk; hide Decided;
    CommitsDecided(cfg, run, b);
    CommitsDecided(cfg, run, c);
    RunSent(cfg, run, |run| - 1);
    SameViewAgrees(cfg, run[|run| - 1].sent, b, c);
  }

  lemma AgreeUnlessSplit(cfg: Config, run: seq<System>, b: Block, c: Block)
    requires IsRun(cfg, run) && cfg.n >= 1 && Commits(run, b) && Commits(run, c) && b.view < c.view
    requires !Splits(cfg, b.view, c.view)
    ensures |run| >= 1 && Extends(run[|run| - 1].sent, c, b)
  {
    hide IsRun; hide Commits; hide SentOk; hide High; hide HeardBetween; hide LeaderOf; hide Extends; hide Turnout;
    CommitsDecided(cfg, run, b);
    CommitsDecided(cfg, run, c);
    var t := |run| - 1;
    RunSent(cfg, run, t);
    DecidedHeard(cfg, run[t].sent, b);
    DecidedHeard(cfg, run[t].sent, c);
    hide Decided;
    forall u: nat | u < c.view ensures LeaderOf(cfg, u).Some? {
      CoinsBefore(cfg, run, t, c, u);
    }
    HeardExtends(cfg, run, t, b, c);
  }

  lemma DecidedHeard(cfg: Config, sent: set<Msg>, b: Block)
    requires cfg.n >= 1 && SentOk(cfg, sent) && Decided(cfg, sent, b)
    ensures Heard(cfg, b.view) && ProposeMsg(b) in sent
  {
    hide SentOk; hide Certified; hide LeaderOf; hide Hash;
    var q :| DecidedBy(cfg, sent, q, b);
    LeaderSpeaks(cfg, sent, b);
  }

  /** Something is decided only when 2f+1 nodes run. */
  lemma DecisionsNeedQuorum(cfg: Config, run: seq<System>, b: Block)
    requires IsRun(cfg, run) && Commits(run, b)
    ensures Turnout(cfg) >= High(cfg.n)
  {
    hide IsRun; hide Commits; hide High; hide LeaderOf; hide Turnout; hide Running; hide Voters; hide Hash;
    CommitsDecided(cfg, run, b);
    var q :| DecidedBy(cfg, run[|run| - 1].sent, q, b);
    VotersRun(cfg, run, |run| - 1, q);
    TurnoutSize(cfg);
    SubsetSize(Voters(cfg.n, run[|run| - 1].sent, q), Running(cfg));
  }

  /** The decisions of every run agree if and only if nothing can be decided, or no two views that can be reached and
      have running leaders can be split: no more than 2f+1 nodes run, and no silent leader comes in between. */
  lemma AgreementIff(cfg: Config)
    requires cfg.n >= 1
    ensures Agreement(cfg) <==> Turnout(cfg) < High(cfg.n) || forall view: nat, top: nat :: !Splits(cfg, view, top)
  {
    hide IsRun; hide Commits; hide High; hide Extends; hide Turnout; hide LeaderOf; hide SilentLeader;
    if Turnout(cfg) < High(cfg.n) || forall view: nat, top: nat :: !Splits(cfg, view, top) {
      forall run: seq<System>, b: Block, c: Block | IsRun(cfg, run) && Commits(run, b) && Commits(run, c) &&
        b.view <= c.view
        ensures |run| >= 1 && Extends(run[|run| - 1].sent, c, b)
      {
        DecisionsNeedQuorum(cfg, run, b);
        if b.view == c.view {
          AgreeInView(cfg, run, b, c);
        } else {
          assert !Splits(cfg, b.view, c.view);
          AgreeUnlessSplit(cfg, run, b, c);
        }
      }
    } else {
      var view: nat, top: nat :| Splits(cfg, view, top);
      Disagree(cfg, view, top);
    }
  }

  lemma Disagree(cfg: Config, view: nat, top: nat)
    requires cfg.n >= 1 && Turnout(cfg) >= High(cfg.n) && Splits(cfg, view, top)
    ensures !Agreement(cfg)
  {
    hide IsRun; hide Commits; hide High; hide Extends; hide Turnout; hide LeaderOf; hide SilentLeader; hide Heard;
    if Turnout(cfg) > High(cfg.n) {
      var run, b, c := Fork(cfg, view, top);
    } else {
      var silent: nat :| view < silent < top && SilentLeader(cfg, silent);
      var run, b, c := Restart(cfg, view, silent, top);
    }
  }
}
