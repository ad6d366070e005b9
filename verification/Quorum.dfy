/** Thresholds of a committee of `n` nodes and exactly when the quorums they define intersect. */
module Quorum {

  /** (n-1)/3 with the division of the source, which truncates towards zero. */
  function MaxFaulty(n: nat): nat {
    if n == 0 then 0 else (n - 1) / 3
  }

  /** HightThreshold: 2f+1 */
  function High(n: nat): (q: nat)
    ensures q >= 1 && (n >= 1 ==> q <= n)
  {
    2 * MaxFaulty(n) + 1
  }

  /** LowThreshold: f+1 */
  function Low(n: nat): (q: nat)
    ensures q >= 1 && (n >= 1 ==> q <= n)
  {
    MaxFaulty(n) + 1
  }

  /** Node identifiers from `lo` up to but excluding `hi`. */
  function Between(lo: nat, hi: nat): (r: set<nat>)
    ensures forall i :: i in r <==> lo <= i < hi
  {
    if lo < hi then Between(lo, hi - 1) + {hi - 1} else {}
  }

  function Nodes(n: nat): set<nat> {
    Between(0, n)
  }

  lemma InNodes(n: nat, x: nat)
    ensures x in Nodes(n) <==> x < n
  {
  }

  lemma {:induction false} BetweenSize(lo: nat, hi: nat)
    requires lo <= hi
    ensures |Between(lo, hi)| == hi - lo
  {
    if lo < hi {
      assert hi - 1 !in Between(lo, hi - 1);
      BetweenSize(lo, hi - 1);
    }
  }

  /** How many of `n` nodes run when those with an identifier below `faults` stay silent. */
  function Present(n: nat, faults: nat): nat {
    if faults < n then n - faults else 0
  }

  lemma PresentSize(n: nat, faults: nat)
    ensures |Between(faults, n)| == Present(n, faults)
  {
    if faults < n {
      BetweenSize(faults, n);
    }
  }

  lemma {:induction false} SubsetSize<T>(a: set<T>, b: set<T>)
    requires a <= b
    ensures |a| <= |b|
  {
    if a != {} {
      var x :| x in a;
      SubsetSize(a - {x}, b - {x});
    }
  }

  lemma UnionSize<T>(a: set<T>, b: set<T>)
    ensures |a + b| + |a * b| == |a| + |b|
  {
  }

  /** Messages that occur once each and have different authors have as many authors. */
  lemma {:induction false} AuthorsSize<T>(ms: multiset<T>, author: T -> nat)
    requires forall t :: t in ms ==> ms[t] == 1
    requires forall s, t :: s in ms && t in ms && author(s) == author(t) ==> s == t
    ensures |Authors(ms, author)| == |ms|
  {
    if ms != multiset{} {
      var t :| t in ms;
      var rest := ms - multiset{t};
      assert ms == rest + multiset{t};
      assert forall s :: s in rest ==> s in ms && s != t && rest[s] == 1;
      AuthorsSize(rest, author);
      assert Authors(ms, author) == Authors(rest, author) + {author(t)};
    } else {
      assert Authors(ms, author) == {};
    }
  }

  function Authors<T>(ms: multiset<T>, author: T -> nat): set<nat> {
    set t | t in ms :: author(t)
  }

  /** Inclusion and exclusion. */
  lemma OverlapWithin<T>(w: set<T>, a: set<T>, b: set<T>)
    requires a <= w && b <= w
    ensures |a * b| >= |a| + |b| - |w|
  {
    SubsetSize(a + b, w);
    UnionSize(a, b);
  }

  /** Inclusion and exclusion among the nodes of a committee. */
  lemma Overlap(n: nat, a: set<nat>, b: set<nat>)
    requires a <= Nodes(n) && b <= Nodes(n)
    ensures |a * b| >= |a| + |b| - n
  {
    BetweenSize(0, n);
    OverlapWithin(Nodes(n), a, b);
  }

  /** Two sets that together outnumber the committee have a common member. */
  lemma Meet(n: nat, a: set<nat>, b: set<nat>) returns (x: nat)
    requires a <= Nodes(n) && b <= Nodes(n) && |a| + |b| > n
    ensures x in a && x in b
  {
    Overlap(n, a, b);
    assert a * b != {};
    x :| x in a * b;
  }

  // ----- Lists of nodes -----

  predicate Distinct(s: seq<nat>) {
    forall i, j :: 0 <= i < j < |s| ==> s[i] != s[j]
  }

  /** `count` identifiers from `lo` on, without `p`. */
  function Others(lo: nat, p: nat, count: nat): (w: seq<nat>)
    ensures |w| == count && forall x :: x in w ==> lo <= x <= lo + count && x != p && (p < lo ==> x < lo + count)
    decreases count, p + 1 - lo
  {
    if count == 0 then []
    else if lo == p then Others(lo + 1, p, count)
    else [lo] + Others(lo + 1, p, count - 1)
  }

  lemma OthersDistinct(lo: nat, p: nat, count: nat)
    ensures Distinct(Others(lo, p, count))
    decreases count, p + 1 - lo
  {
    if count > 0 {
      if lo == p {
        OthersDistinct(lo + 1, p, count);
      } else {
        var rest := Others(lo + 1, p, count - 1);
        OthersDistinct(lo + 1, p, count - 1);
        assert forall i :: 0 <= i < |rest| ==> rest[i] in rest;
      }
    }
  }

  function Members(w: seq<nat>): set<nat> {
    set x | x in w
  }

  lemma {:induction false} DistinctSize(w: seq<nat>)
    requires Distinct(w)
    ensures |Members(w)| == |w|
  {
    if w != [] {
      var k := |w| - 1;
      DistinctSize(w[..k]);
      assert w[k] !in w[..k];
      assert Members(w) == Members(w[..k]) + {w[k]};
    }
  }

  /** A quorum of running nodes without `p`. */
  lemma QuorumWithout(n: nat, faults: nat, p: nat) returns (w: seq<nat>)
    requires if p < faults then Present(n, faults) >= High(n) else Present(n, faults) > High(n)
    ensures Distinct(w) && |w| == High(n) && p !in w && forall x :: x in w ==> faults <= x < n
  {
    assert High(n) >= 1;
    hide High;
    w := Others(faults, p, High(n));
    OthersDistinct(faults, p, High(n));
  }

  lemma Split(w: seq<nat>)
    requires w != [] && Distinct(w)
    ensures w[0] in w && Distinct(w[1..]) && w[0] !in w[1..] && Members(w) == {w[0]} + Members(w[1..])
    ensures forall x :: x in w <==> x == w[0] || x in w[1..]
  {
    assert w == [w[0]] + w[1..];
  }

  // ----- Overlapping quorums -----

  /** Any set of at least `p` nodes and any set of at least `q` nodes share at least `k` nodes. */
  ghost predicate AlwaysShare(n: nat, p: nat, q: nat, k: nat) {
    forall a: set<nat>, b: set<nat> :: a <= Nodes(n) && b <= Nodes(n) && |a| >= p && |b| >= q ==> |a * b| >= k
  }

  /** Two ends of the committee overlap as little as possible. */
  lemma LeastOverlap(n: nat, p: nat, q: nat) returns (a: set<nat>, b: set<nat>)
    requires p <= n && q <= n
    ensures a <= Nodes(n) && b <= Nodes(n) && |a| == p && |b| == q
    ensures |a * b| == if p + q > n then p + q - n else 0
  {
    hide Between;
    a, b := Between(0, p), Between(n - q, n);
    BetweenSize(0, p);
    BetweenSize(n - q, n);
    if p + q > n {
      assert a * b == Between(n - q, p);
      BetweenSize(n - q, p);
    } else {
      assert a * b == {};
    }
  }

  lemma ShareExactly(n: nat, p: nat, q: nat, k: nat)
    requires p <= n && q <= n && k >= 1
    ensures AlwaysShare(n, p, q, k) <==> p + q >= n + k
  {
    if p + q >= n + k {
      forall a: set<nat>, b: set<nat> | a <= Nodes(n) && b <= Nodes(n) && |a| >= p && |b| >= q ensures |a * b| >= k {
        Overlap(n, a, b);
      }
    } else {
      var a, b := LeastOverlap(n, p, q);
      assert |a * b| < k;
    }
  }

  /** Two 2f+1 quorums always share f+1 nodes exactly when n = 3f+1. */
  lemma QuorumsShareCorrectNode(n: nat)
    requires n >= 1
    ensures AlwaysShare(n, High(n), High(n), Low(n)) <==> n % 3 == 1
  {
    assert High(n) + High(n) >= n + Low(n) <==> n % 3 == 1 by {
      hide AlwaysShare;
      assert n - 1 == 3 * MaxFaulty(n) + (n - 1) % 3;
      hide MaxFaulty;
    }
    hide High; hide Low; hide AlwaysShare;
    ShareExactly(n, High(n), High(n), Low(n));
  }

  /** Two 2f+1 quorums always intersect except in committees of 2, 3 and 6 nodes. */
  lemma QuorumsIntersect(n: nat)
    requires n >= 1
    ensures AlwaysShare(n, High(n), High(n), 1) <==> n != 2 && n != 3 && n != 6
  {
    ShareExactly(n, High(n), High(n), 1);
  }

  /** A 2f+1 quorum always meets an f+1 set exactly when n = 3f+1. */
  lemma QuorumMeetsWeakQuorum(n: nat)
    requires n >= 1
    ensures AlwaysShare(n, High(n), Low(n), 1) <==> n % 3 == 1
  {
    ShareExactly(n, High(n), Low(n), 1);
  }

  /** In a committee of 3f+1 nodes the two thresholds together exceed the committee by one. */
  lemma Thresholds(n: nat)
    requires n % 3 == 1
    ensures Low(n) + High(n) == n + 1 && 2 * High(n) == n + Low(n)
  {
  }
}
