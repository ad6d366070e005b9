/** The common core: some height-1 blocks of a view are referenced by f+1 height-2 blocks. */
module CommonCore {
  import opened Blocks
  import opened Quorum
  import opened DagNode
  import opened DagSystem
  import opened DagInvariant
  import opened DagRuns
  import opened DagSafety
  import opened DagTheorems

  // ----- Double counting -----

  type Table = map<nat, set<nat>>

  /** All entries of the rows below `m`. */
  function RowSum(refs: Table, m: nat): nat {
    if m == 0 then 0 else RowSum(refs, m - 1) + (if m - 1 in refs then |refs[m - 1]| else 0)
  }

  /** The rows below `m` that contain `y`. */
  function ColumnCount(refs: Table, m: nat, y: nat): nat {
    if m == 0 then 0 else ColumnCount(refs, m - 1, y) + (if m - 1 in refs && y in refs[m - 1] then 1 else 0)
  }

  function ColumnSum(refs: Table, m: nat, n: nat): nat {
    if n == 0 then 0 else ColumnSum(refs, m, n - 1) + ColumnCount(refs, m, n - 1)
  }

  lemma {:induction false} AddRow(refs: Table, m: nat, n: nat)
    requires m > 0
    ensures ColumnSum(refs, m, n) == ColumnSum(refs, m - 1, n) + (if m - 1 in refs then |refs[m - 1] * Nodes(n)| else 0)
  {
    if n == 0 {
      assert m - 1 in refs ==> refs[m - 1] * Nodes(0) == {};
    } else {
      AddRow(refs, m, n - 1);
      if m - 1 in refs {
        var r := refs[m - 1];
        assert r * Nodes(n) == r * Nodes(n - 1) + (if n - 1 in r then {n - 1} else {});
        assert n - 1 !in r * Nodes(n - 1);
      }
    }
  }

  /** Counting the entries by rows and by columns gives the same. */
  lemma {:induction false} CountBothWays(refs: Table, m: nat, n: nat)
    requires forall x :: x in refs ==> refs[x] <= Nodes(n)
    ensures RowSum(refs, m) == ColumnSum(refs, m, n)
  {
    if m == 0 {
      EmptyColumns(refs, n);
    } else {
      CountBothWays(refs, m - 1, n);
      AddRow(refs, m, n);
      if m - 1 in refs {
        assert refs[m - 1] * Nodes(n) == refs[m - 1];
      }
    }
  }

  lemma {:induction false} EmptyColumns(refs: Table, n: nat)
    ensures ColumnSum(refs, 0, n) == 0
  {
    if n > 0 {
      EmptyColumns(refs, n - 1);
    }
  }

  lemma OneMore(q: nat, c: nat)
    ensures q * (c + 1) == q * c + q
  {
  }

  lemma RowsBelow(refs: Table, m: nat)
    ensures |refs.Keys * Nodes(0)| == 0
    ensures m > 0 ==> |refs.Keys * Nodes(m)| == |refs.Keys * Nodes(m - 1)| + (if m - 1 in refs then 1 else 0)
  {
    hide Between;
    assert refs.Keys * Nodes(0) == {};
    if m > 0 {
      var k := refs.Keys * Nodes(m - 1);
      assert refs.Keys * Nodes(m) == k + (if m - 1 in refs then {m - 1} else {});
      assert m - 1 !in k;
    }
  }

  /** Rows of at least `q` entries each. */
  lemma {:induction false} FullRows(refs: Table, m: nat, q: nat)
    requires forall x :: x in refs ==> |refs[x]| >= q
    ensures RowSum(refs, m) >= q * |refs.Keys * Nodes(m)|
  {
    RowsBelow(refs, m);
    hide Nodes;
    if m > 0 {
      FullRows(refs, m - 1, q);
      OneMore(q, |refs.Keys * Nodes(m - 1)|);
    }
  }

  /** The columns below `n` with at least `k` entries. */
  function Popular(refs: Table, m: nat, n: nat, k: nat): (g: set<nat>)
    ensures forall y: nat :: y in g <==> y < n && ColumnCount(refs, m, y) >= k
  {
    if n == 0 then {}
    else Popular(refs, m, n - 1, k) + (if ColumnCount(refs, m, n - 1) >= k then {n - 1} else {})
  }

  lemma PopularBelow(refs: Table, m: nat, n: nat, k: nat)
    requires n > 0
    ensures |Popular(refs, m, n, k)| ==
      |Popular(refs, m, n - 1, k)| + (if ColumnCount(refs, m, n - 1) >= k then 1 else 0)
  {
    assert n - 1 !in Popular(refs, m, n - 1, k);
  }

  /** `g` full columns and few entries in the others. */
  predicate Bounded(sum: nat, full: nat, g: nat, few: nat, n: nat) {
    g <= n && sum <= full * g + few * (n - g)
  }

  lemma NextColumn(sum: nat, c: nat, full: nat, g: nat, few: nat, n: nat)
    requires Bounded(sum, full, g, few, n) && c <= full
    ensures c > few ==> Bounded(sum + c, full, g + 1, few, n + 1)
    ensures c <= few ==> Bounded(sum + c, full, g, few, n + 1)
  {
    OneMore(full, g);
    OneMore(few, n - g);
    assert n + 1 - (g + 1) == n - g && n + 1 - g == n - g + 1;
  }

  lemma NoColumns(refs: Table, m: nat, k: nat, full: nat)
    requires k >= 1
    ensures Bounded(ColumnSum(refs, m, 0), full, |Popular(refs, m, 0, k)|, k - 1, 0)
  {
    assert Popular(refs, m, 0, k) == {};
  }

  /** Popular columns are at most full, the others hold fewer than `k` entries. */
  lemma {:induction false} FewEntries(refs: Table, m: nat, n: nat, k: nat, full: nat)
    requires k >= 1 && forall y :: ColumnCount(refs, m, y) <= full
    ensures Bounded(ColumnSum(refs, m, n), full, |Popular(refs, m, n, k)|, k - 1, n)
  {
    hide Popular; hide ColumnCount; hide Bounded; hide ColumnSum;
    if n == 0 {
      NoColumns(refs, m, k, full);
    } else {
      PopularBelow(refs, m, n, k);
      FewEntries(refs, m, n - 1, k, full);
      SumBelow(refs, m, n);
      NextColumn(ColumnSum(refs, m, n - 1), ColumnCount(refs, m, n - 1), full, |Popular(refs, m, n - 1, k)|, k - 1,
        n - 1);
    }
  }

  lemma SumBelow(refs: Table, m: nat, n: nat)
    requires n > 0
    ensures ColumnSum(refs, m, n) == ColumnSum(refs, m, n - 1) + ColumnCount(refs, m, n - 1)
  {
  }

  function Rows(refs: Table, m: nat, y: nat): set<nat> {
    set x | x in refs && x < m && y in refs[x]
  }

  /** A column count is the number of rows that contain it. */
  lemma {:induction false} ColumnIsSet(refs: Table, m: nat, y: nat)
    ensures ColumnCount(refs, m, y) == |Rows(refs, m, y)|
  {
    if m == 0 {
      assert Rows(refs, m, y) == {};
    } else {
      ColumnIsSet(refs, m - 1, y);
      assert Rows(refs, m, y) == Rows(refs, m - 1, y) + (if m - 1 in refs && y in refs[m - 1] then {m - 1} else {});
    }
  }

  /** With 2f+1 rows of at least 2f+1 entries over 3f+1 columns, f+1 columns, and f+2 when f is not 0,
      have at least f+1 entries. */
  lemma CoreArithmetic(f: nat, g: int)
    requires (2 * f + 1) * (2 * f + 1) <= (2 * f + 1) * g + f * (3 * f + 1 - g)
    ensures g >= f + 1 && (f >= 1 ==> g >= f + 2)
  {
    assert (2 * f + 1) * (2 * f + 1) == 4 * f * f + 4 * f + 1;
    assert (2 * f + 1) * g + f * (3 * f + 1 - g) == (f + 1) * g + 3 * f * f + f;
    if g <= f + 1 {
      assert (f + 1) * g <= (f + 1) * (f + 1);
      assert (f + 1) * (f + 1) == f * f + 2 * f + 1;
    }
    if f == 0 {
      assert (f + 1) * g == g;
    }
  }

  lemma {:induction false} Subset(a: set<nat>, k: nat) returns (b: set<nat>)
    requires |a| >= k
    ensures b <= a && |b| == k
  {
    if k == 0 {
      b := {};
    } else {
      var x :| x in a;
      b := Subset(a - {x}, k - 1);
      b := b + {x};
    }
  }

  /** The entries of 2f+1 full rows, counted by columns. */
  lemma EntriesBound(n: nat, refs: Table, low: nat, high: nat)
    requires low >= 1 && |refs.Keys| == high && refs.Keys <= Nodes(n)
    requires forall x :: x in refs ==> refs[x] <= Nodes(n) && |refs[x]| >= high
    ensures high * high <= high * |Popular(refs, n, n, low)| + (low - 1) * (n - |Popular(refs, n, n, low)|)
  {
    hide Popular; hide ColumnSum; hide RowSum; hide ColumnCount;
    CountBothWays(refs, n, n);
    FullRows(refs, n, high);
    assert refs.Keys * Nodes(n) == refs.Keys;
    forall y ensures ColumnCount(refs, n, y) <= high {
      ColumnIsSet(refs, n, y);
      SubsetSize(Rows(refs, n, y), refs.Keys);
    }
    FewEntries(refs, n, n, low, high);
  }

  /** The double count for exactly 2f+1 rows. */
  lemma ExactCore(n: nat, refs: Table)
    requires n % 3 == 1 && |refs.Keys| == High(n) && refs.Keys <= Nodes(n)
    requires forall x :: x in refs ==> refs[x] <= Nodes(n) && |refs[x]| >= High(n)
    ensures |Popular(refs, n, n, Low(n))| >= Low(n)
    ensures n > 1 ==> |Popular(refs, n, n, Low(n))| >= Low(n) + 1
  {
    hide Popular; hide Nodes;
    EntriesBound(n, refs, Low(n), High(n));
    var f := MaxFaulty(n);
    assert n == 3 * f + 1 && High(n) == 2 * f + 1 && Low(n) == f + 1;
    CoreArithmetic(f, |Popular(refs, n, n, Low(n))|);
  }

  /** More rows only make columns more popular. */
  lemma Core(n: nat, refs: Table)
    requires n % 3 == 1 && |refs.Keys| >= High(n) && refs.Keys <= Nodes(n)
    requires forall x :: x in refs ==> refs[x] <= Nodes(n) && |refs[x]| >= High(n)
    ensures |Popular(refs, n, n, Low(n))| >= Low(n)
    ensures n > 1 ==> |Popular(refs, n, n, Low(n))| >= Low(n) + 1
  {
    hide Popular; hide ColumnCount; hide High; hide Low;
    var b := Subset(refs.Keys, High(n));
    var some := map x | x in b :: refs[x];
    assert some.Keys == b;
    ExactCore(n, some);
    forall y ensures ColumnCount(some, n, y) <= ColumnCount(refs, n, y) {
      ColumnIsSet(some, n, y);
      ColumnIsSet(refs, n, y);
      SubsetSize(Rows(some, n, y), Rows(refs, n, y));
    }
    SubsetSize(Popular(some, n, n, Low(n)), Popular(refs, n, n, Low(n)));
  }

  // ----- The core of a view -----

  ghost predicate HasProposed(sent: set<Msg>, x: NodeId, view: nat, h: Height) {
    exists b :: ProposeMsg(b) in sent && b.author == x && b.view == view && b.height == h
  }

  ghost function BlockOf(sent: set<Msg>, x: NodeId, view: nat, h: Height): (b: Block)
    requires HasProposed(sent, x, view, h)
    ensures ProposeMsg(b) in sent && b.author == x && b.view == view && b.height == h
  {
    var b :| ProposeMsg(b) in sent && b.author == x && b.view == view && b.height == h;
    b
  }

  /** `p`'s height-1 block of `view` is in the causal history of every block of a later view. */
  ghost predicate InAllLater(sent: set<Msg>, view: nat, p: NodeId) {
    exists b :: IsFirst(sent, b, view, p) && forall d :: ProposeMsg(d) in sent && d.view > view ==>
      InHistory(sent, d, b)
  }

  /** `b` is the height-1 block of `p` in `view`. */
  predicate IsFirst(sent: set<Msg>, b: Block, view: nat, p: NodeId) {
    ProposeMsg(b) in sent && b.author == p && b.view == view && b.height.H1?
  }

  /** A leader that f+1 weak votes commit: `s` of the nodes in `a` have a height-2 block that references `b`. */
  ghost predicate Commits(cfg: Config, sent: set<Msg>, view: nat, a: set<NodeId>, p: NodeId, b: Block, s: set<NodeId>) {
    IsFirst(sent, b, view, p) && s <= a && |s| >= Low(cfg.n) && forall x :: x in s ==> Supports(sent, x, b)
  }

  ghost predicate Committable(cfg: Config, sent: set<Msg>, view: nat, a: set<NodeId>, p: NodeId) {
    exists b, s :: Commits(cfg, sent, view, a, p, b, s)
  }

  /** A proposer referenced by f+1 of the height-2 blocks is committable. */
  lemma PopularIsCommittable(cfg: Config, sent: set<Msg>, view: nat, a: set<NodeId>, s: set<NodeId>, p: NodeId)
    requires SentOk(cfg, sent) && s <= a && |s| >= Low(cfg.n)
    requires forall x :: x in s ==>
      HasProposed(sent, x, view, H2) && p in Proposers(BlockOf(sent, x, view, H2).references)
    ensures Committable(cfg, sent, view, a, p)
  {
    hide SentOk; hide Low;
    assert Low(cfg.n) >= 1;
    var x0 :| x0 in s;
    var b := Referenced(cfg, sent, view, x0, p);
    forall x | x in s ensures Supports(sent, x, b) {
      var b' := Referenced(cfg, sent, view, x, p);
      Unique(cfg, sent, b, b');
    }
    hide Supports;
    assert Commits(cfg, sent, view, a, p, b, s);
  }

  /** A committable leader is in every later history, also of blocks that are proposed afterwards. */
  lemma CommittableIsSafe(cfg: Config, sent: set<Msg>, sent': set<Msg>, view: nat, a: set<NodeId>, p: NodeId)
    requires cfg.n % 3 == 1 && SentOk(cfg, sent') && sent <= sent' && a <= Nodes(cfg.n)
    requires Committable(cfg, sent, view, a, p)
    ensures InAllLater(sent', view, p)
  {
    hide SentOk; hide Low; hide InHistory; hide Supports; hide Nodes;
    var b, s :| Commits(cfg, sent, view, a, p, b, s);
    forall x | x in s ensures Supports(sent', x, b) {
      SupportGrows(sent, sent', x, b);
    }
    forall d | ProposeMsg(d) in sent' && d.view > view ensures InHistory(sent', d, b) {
      WeakCommitSafety(cfg, sent', b, s, d);
    }
    assert IsFirst(sent', b, view, p);
  }

  lemma Unique(cfg: Config, sent: set<Msg>, b: Block, c: Block)
    requires SentOk(cfg, sent) && ProposeMsg(b) in sent && ProposeMsg(c) in sent && SamePosition(b, c)
    ensures b == c
  {
    hide RefsOk;
    assert OnePerPosition(sent);
  }

  lemma Referenced(cfg: Config, sent: set<Msg>, view: nat, x: NodeId, p: NodeId) returns (b: Block)
    requires SentOk(cfg, sent) && HasProposed(sent, x, view, H2)
    requires p in Proposers(BlockOf(sent, x, view, H2).references)
    ensures IsFirst(sent, b, view, p) && Supports(sent, x, b)
  {
    hide SentOk;
    var c := BlockOf(sent, x, view, H2);
    var q :| q in c.references && q.proposer == p;
    b := RefBlock(cfg, sent, c, q);
  }

  /** Common core: once 2f+1 nodes have proposed their height-2 block of a view, at least f+1 proposers
      of that view, and f+2 when f is not 0, have a height-1 block that f+1 of those blocks reference:
      they are committable, and from then on in the causal history of every block of a later view. */
  lemma CommonCoreOfView(cfg: Config, run: seq<System>, t: nat, view: nat, a: set<NodeId>) returns (good: set<NodeId>)
    requires IsRun(cfg, run) && t < |run| && cfg.n % 3 == 1
    requires a <= Nodes(cfg.n) && |a| >= High(cfg.n) && forall x :: x in a ==> HasProposed(run[t].sent, x, view, H2)
    ensures good <= Nodes(cfg.n) && |good| >= Low(cfg.n) && (cfg.n > 1 ==> |good| >= Low(cfg.n) + 1)
    ensures forall p :: p in good ==> Committable(cfg, run[t].sent, view, a, p)
    ensures forall p, u :: p in good && t <= u < |run| ==> InAllLater(run[u].sent, view, p)
  {
    hide IsRun; hide SystemOk; hide SentOk; hide High; hide Low; hide HasProposed; hide InAllLater; hide Committable;
    RunOk(cfg, run, t);
    SentOfSystem(cfg, run[t]);
    good := CoreOfBlocks(cfg, run[t].sent, view, a);
    forall p, u | p in good && t <= u < |run| ensures InAllLater(run[u].sent, view, p) {
      RunOk(cfg, run, u);
      SentOfSystem(cfg, run[u]);
      SentGrows(cfg, run, t, u);
      CommittableIsSafe(cfg, run[t].sent, run[u].sent, view, a, p);
    }
  }

  /** The double count over the references of those blocks. */
  lemma CoreOfBlocks(cfg: Config, sent: set<Msg>, view: nat, a: set<NodeId>) returns (good: set<NodeId>)
    requires SentOk(cfg, sent) && cfg.n % 3 == 1
    requires a <= Nodes(cfg.n) && |a| >= High(cfg.n) && forall x :: x in a ==> HasProposed(sent, x, view, H2)
    ensures good <= Nodes(cfg.n) && |good| >= Low(cfg.n) && (cfg.n > 1 ==> |good| >= Low(cfg.n) + 1)
    ensures forall p :: p in good ==> Committable(cfg, sent, view, a, p)
  {
    hide SentOk; hide High; hide Low; hide Popular; hide ColumnCount; hide HasProposed; hide Committable;
    hide Proposers;
    var n := cfg.n;
    var refs: Table := map x | x in a :: Proposers(BlockOf(sent, x, view, H2).references);
    assert refs.Keys == a;
    forall x | x in refs ensures refs[x] <= Nodes(n) && |refs[x]| >= High(n) {
      RefQuorum(cfg, sent, BlockOf(sent, x, view, H2));
    }
    Core(n, refs);
    good := Popular(refs, n, n, Low(n));
    forall p | p in good ensures Committable(cfg, sent, view, a, p) {
      ColumnIsSet(refs, n, p);
      PopularIsCommittable(cfg, sent, view, a, Rows(refs, n, p), p);
    }
  }
}
