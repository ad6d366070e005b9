/** The view change of the lean and Big cores: counting reports and advancing the view. */
module ViewChange {
  import opened Blocks

  /** reportNums of one view. */
  datatype Tally = Tally(two: nat, one: nat, zero: nat)

  /** The view of a node and its report counters. */
  datatype Progress = Progress(view: nat, reportNums: map<nat, Tally>)

  const NO_PROGRESS := Progress(0, map[])

  function At(p: Progress, view: nat): Tally {
    if view in p.reportNums then p.reportNums[view] else Tally(0, 0, 0)
  }

  function Count(t: Tally, level: Level): Tally {
    match level
    case Level2 => t.(two := t.two + 1)
    case Level1 => t.(one := t.one + 1)
    case Level0 => t.(zero := t.zero + 1)
  }

  /** The condition in handleReportMsg. */
  predicate Completes(t: Tally, high: nat) {
    t.two == 1 || t.one == high || t.zero == high
  }

  /** handleReportMsg with advanceView; the lean core first drops reports of views it has left
      (`filtered`), the Big core does not. */
  function OnReport(p: Progress, high: nat, filtered: bool, view: nat, level: Level): (Progress, bool) {
    if filtered && view < p.view then (p, false)
    else
      var t := Count(At(p, view), level);
      var nums := p.reportNums[view := t];
      if Completes(t, high) && view + 1 > p.view then (Progress(view + 1, nums), true)
      else (Progress(p.view, nums), false)
  }

  // ----- What is true of every sequence of reports -----

  /** No level of a view is complete. */
  predicate Open(t: Tally, high: nat) {
    t.two == 0 && t.one < high && t.zero < high
  }

  /** One level has just been completed. */
  predicate Reached(t: Tally, level: Level, high: nat) {
    match level
    case Level2 => t.two == 1
    case Level1 => t.one == high
    case Level0 => t.zero == high
  }

  /** Neither the current view nor a later one has a complete level. */
  ghost predicate AllOpen(p: Progress, high: nat) {
    forall v: nat :: v >= p.view ==> Open(At(p, v), high)
  }

  /** A report advances the view if and only if it is the one that first completes a level of the current
      view or a later one; the new view is then the next one, and all remaining views are open. */
  lemma ReportAdvances(p: Progress, high: nat, filtered: bool, view: nat, level: Level, p': Progress, advanced: bool)
    requires high >= 1 && AllOpen(p, high) && (p', advanced) == OnReport(p, high, filtered, view, level)
    ensures AllOpen(p', high)
    ensures advanced <==> view >= p.view && Reached(Count(At(p, view), level), level, high)
    ensures p'.view == if advanced then view + 1 else p.view
  {
    assert forall v: nat :: v != view ==> At(p', v) == At(p, v);
  }

  /** A report changes at most its own counter. */
  lemma ReportCounts(p: Progress, high: nat, filtered: bool, view: nat, level: Level, v: nat)
    ensures var p' := OnReport(p, high, filtered, view, level).0;
      At(p', v) == At(p, v) || (v == view && At(p', v) == Count(At(p, v), level))
    ensures OnReport(p, high, filtered, view, level).1 ==>
      At(OnReport(p, high, filtered, view, level).0, view) == Count(At(p, view), level)
  {
  }

  datatype Heard = Heard(view: nat, level: Level)

  function After(high: nat, filtered: bool, hs: seq<Heard>): Progress {
    if hs == [] then NO_PROGRESS
    else
      var h := hs[|hs| - 1];
      OnReport(After(high, filtered, hs[..|hs| - 1]), high, filtered, h.view, h.level).0
  }

  lemma {:induction false} AlwaysOpen(high: nat, filtered: bool, hs: seq<Heard>)
    requires high >= 1
    ensures AllOpen(After(high, filtered, hs), high)
  {
    if hs != [] {
      var init, h := hs[..|hs| - 1], hs[|hs| - 1];
      AlwaysOpen(high, filtered, init);
      var r := OnReport(After(high, filtered, init), high, filtered, h.view, h.level);
      ReportAdvances(After(high, filtered, init), high, filtered, h.view, h.level, r.0, r.1);
    }
  }

  /** Views never decrease. */
  lemma {:induction false} ViewsGrow(high: nat, filtered: bool, hs: seq<Heard>, k: nat)
    requires high >= 1 && k <= |hs|
    ensures After(high, filtered, hs[..k]).view <= After(high, filtered, hs).view
  {
    if k == |hs| {
      assert hs[..k] == hs;
    } else {
      var init := hs[..|hs| - 1];
      ViewsGrow(high, filtered, init, k);
      assert init[..k] == hs[..k];
    }
  }

  function LevelCount(hs: seq<Heard>, view: nat, level: Level): nat {
    if hs == [] then 0
    else LevelCount(hs[..|hs| - 1], view, level) + if hs[|hs| - 1] == Heard(view, level) then 1 else 0
  }

  /** Without a filter the counters count every report. */
  lemma {:induction false} CountersCount(high: nat, hs: seq<Heard>, view: nat)
    ensures var t := At(After(high, false, hs), view);
      && t.two == LevelCount(hs, view, Level2)
      && t.one == LevelCount(hs, view, Level1)
      && t.zero == LevelCount(hs, view, Level0)
  {
    if hs != [] {
      CountersCount(high, hs[..|hs| - 1], view);
    }
  }

  lemma OpenBefore(p: Progress, high: nat, filtered: bool, h: Heard, view: nat)
    ensures Open(At(OnReport(p, high, filtered, h.view, h.level).0, view), high) ==> Open(At(p, view), high)
  {
  }

  /** The view is the one after the last view with a complete level. */
  lemma {:induction false} ViewIsAboveCompleted(high: nat, filtered: bool, hs: seq<Heard>, view: nat)
    requires high >= 1
    ensures var p := After(high, filtered, hs);
      && (!Open(At(p, view), high) ==> view < p.view)
      && (p.view > 0 ==> !Open(At(p, p.view - 1), high))
  {
    AlwaysOpen(high, filtered, hs);
    if hs != [] {
      var init, h := hs[..|hs| - 1], hs[|hs| - 1];
      ViewIsAboveCompleted(high, filtered, init, view);
      AlwaysOpen(high, filtered, init);
      var p, r := After(high, filtered, init), OnReport(After(high, filtered, init), high, filtered, h.view, h.level);
      ReportAdvances(p, high, filtered, h.view, h.level, r.0, r.1);
      hide AllOpen; hide After;
      if p.view > 0 {
        OpenBefore(p, high, filtered, h, p.view - 1);
      }
    }
  }

  // ----- The object -----

  class ReportCounter {
    const high: nat
    const filtered: bool
    var view: nat
    var reportNums: map<nat, Tally>

    ghost function Model(): Progress
      reads this
    {
      Progress(view, reportNums)
    }

    ghost predicate Valid()
      reads this
    {
      high >= 1 && AllOpen(Model(), high)
    }

    constructor (high: nat, filtered: bool)
      requires high >= 1
      ensures Valid() && Model() == NO_PROGRESS && this.high == high && this.filtered == filtered
    {
      this.high, this.filtered := high, filtered;
      view, reportNums := 0, map[];
    }

    /** handleReportMsg */
    method HandleReport(v: nat, level: Level) returns (advanced: bool)
      requires Valid()
      modifies this
      ensures Valid() && (Model(), advanced) == OnReport(old(Model()), high, filtered, v, level)
      ensures advanced <==> v >= old(view) && Reached(Count(At(old(Model()), v), level), level, high)
    {
      ghost var before := Model();
      ghost var r := OnReport(before, high, filtered, v, level);
      ReportAdvances(before, high, filtered, v, level, r.0, r.1);
      hide AllOpen;
      if filtered && v < view {
        return false;
      }
      var nums := if v in reportNums then reportNums[v] else Tally(0, 0, 0);
      nums := Count(nums, level);
      reportNums := reportNums[v := nums];
      if nums.two == 1 || nums.one == high || nums.zero == high {
        advanced := AdvanceView(v + 1);
      } else {
        advanced := false;
      }
    }

    /** advanceView, up to the proposal. */
    method AdvanceView(v: nat) returns (advanced: bool)
      modifies this`view
      ensures advanced == (v > old(view)) && view == if advanced then v else old(view)
    {
      if v <= view {
        return false;
      }
      view := v;
      return true;
    }
  }
}
