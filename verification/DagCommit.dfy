/** The commit loop of the DAG protocol (DAGCommitor): breadth first over the references of a block. */
module DagCommit {
  import opened Blocks
  import opened CommitLog

  /** Every block is stored under its hash. */
  ghost predicate KeyedByHash(store: Store) {
    forall d :: d in store ==> Hash(store[d]) == d
  }

  /** A stored block references another stored block; references that are not stored are skipped. */
  ghost predicate Edge(store: Store, d: Digest, e: Digest) {
    d in store && e in store && exists q :: q in store[d].references && q.hash == e
  }

  /** A path through the store that stays outside `done`. */
  ghost predicate Path(store: Store, done: set<Digest>, p: seq<Digest>) {
    && |p| >= 1
    && (forall i :: 0 <= i < |p| ==> p[i] in store && p[i] !in done)
    && (forall i :: 0 <= i < |p| - 1 ==> Edge(store, p[i], p[i + 1]))
  }

  ghost predicate Reaches(store: Store, done: set<Digest>, d: Digest, e: Digest) {
    exists p :: Path(store, done, p) && p[0] == d && p[|p| - 1] == e
  }

  /** What is reached from `d` outside `done`. */
  ghost function Reachable(store: Store, done: set<Digest>, d: Digest): set<Digest> {
    set e | e in store.Keys && Reaches(store, done, d, e)
  }

  /** Committed blocks have their stored references committed. */
  ghost predicate Closed(store: Store, done: set<Digest>) {
    forall d, e :: d in done && Edge(store, d, e) ==> e in done
  }

  // ----- Paths -----

  lemma ReachesSelf(store: Store, done: set<Digest>, d: Digest)
    requires d in store && d !in done
    ensures Reaches(store, done, d, d)
  {
    assert Path(store, done, [d]);
  }

  lemma ReachesNext(store: Store, done: set<Digest>, d: Digest, e: Digest, f: Digest)
    requires Reaches(store, done, d, e) && Edge(store, e, f) && f !in done
    ensures Reaches(store, done, d, f)
  {
    var p :| Path(store, done, p) && p[0] == d && p[|p| - 1] == e;
    var q := p + [f];
    forall i | 0 <= i < |q| - 1 ensures Edge(store, q[i], q[i + 1]) {
      if i < |p| - 1 {
        assert Edge(store, p[i], p[i + 1]);
      }
    }
    assert Path(store, done, q);
  }

  lemma ReachesBefore(store: Store, done: set<Digest>, d: Digest, e: Digest, f: Digest)
    requires Edge(store, d, e) && d !in done && Reaches(store, done, e, f)
    ensures Reaches(store, done, d, f)
  {
    var p :| Path(store, done, p) && p[0] == e && p[|p| - 1] == f;
    var q := [d] + p;
    forall i | 0 <= i < |q| - 1 ensures Edge(store, q[i], q[i + 1]) {
      if i > 0 {
        assert Edge(store, p[i - 1], p[i - 1 + 1]);
      }
    }
    assert Path(store, done, q);
  }

  /** A set that contains the start and is closed under edges that leave `done` contains all. */
  lemma {:induction false} PathStaysIn(store: Store, done: set<Digest>, s: set<Digest>, p: seq<Digest>)
    requires Path(store, done, p) && p[0] in s
    requires forall d, e :: d in s && d !in done && Edge(store, d, e) ==> e in s || e in done
    ensures p[|p| - 1] in s
  {
    if |p| > 1 {
      var q := p[..|p| - 1];
      forall i | 0 <= i < |q| - 1 ensures Edge(store, q[i], q[i + 1]) {
        assert Edge(store, p[i], p[i + 1]);
      }
      assert Path(store, done, q);
      PathStaysIn(store, done, s, q);
      assert Edge(store, p[|p| - 2], p[|p| - 2 + 1]);
    }
  }

  // ----- Draining, as a function of the store and what is committed -----

  /** The committed set after the block with hash `d` has been drained. */
  ghost function Drained(store: Store, done: set<Digest>, d: Digest): set<Digest> {
    done + Reachable(store, done, d)
  }

  lemma DrainedIsClosed(store: Store, done: set<Digest>, d: Digest)
    requires Closed(store, done)
    ensures Closed(store, Drained(store, done, d))
  {
    var all := Drained(store, done, d);
    forall x, y | x in all && Edge(store, x, y) ensures y in all {
      if x !in done && y !in done {
        ReachesNext(store, done, d, x, y);
      }
    }
  }

  /** From a closed committed set nothing is lost by stopping at committed blocks. */
  lemma ClosedLosesNothing(store: Store, done: set<Digest>, d: Digest)
    requires Closed(store, done) && d in store
    ensures Drained(store, done, d) == done + Reachable(store, {}, d)
  {
    var all := Drained(store, done, d);
    DrainedIsClosed(store, done, d);
    if d !in done {
      ReachesSelf(store, done, d);
    }
    forall e | e in Reachable(store, {}, d) ensures e in all {
      var p :| Path(store, {}, p) && p[0] == d && p[|p| - 1] == e;
      PathStaysIn(store, {}, all, p);
    }
    forall e | e in Reachable(store, done, d) ensures e in Reachable(store, {}, d) {
      var p :| Path(store, done, p) && p[0] == d && p[|p| - 1] == e;
      assert Path(store, {}, p);
    }
  }

  /** Draining any stored block commits exactly its causal history if and only if the stored references
      of every stored committed block are committed. */
  lemma DrainExactIffClosed(store: Store, done: set<Digest>)
    ensures (forall d :: d in store ==> Drained(store, done, d) == done + Reachable(store, {}, d)) <==>
      Closed(store, done)
  {
    if Closed(store, done) {
      forall d | d in store ensures Drained(store, done, d) == done + Reachable(store, {}, d) {
        ClosedLosesNothing(store, done, d);
      }
    } else {
      var d, e :| d in done && Edge(store, d, e) && e !in done;
      ReachesSelf(store, {}, d);
      ReachesNext(store, {}, d, d, e);
      assert e in Reachable(store, {}, d);
      assert e !in Drained(store, done, d) by {
        NothingBehindDone(store, done, d);
      }
    }
  }

  lemma NothingBehindDone(store: Store, done: set<Digest>, d: Digest)
    requires d in done
    ensures Reachable(store, done, d) == {}
  {
    forall e ensures !Reaches(store, done, d, e) { }
  }

  // ----- A sequence of drains, each over the store of its time -----

  ghost function DrainEach(stores: seq<Store>, done: set<Digest>, ds: seq<Digest>): set<Digest>
    requires |stores| == |ds|
  {
    if ds == [] then done
    else
      var n := |ds| - 1;
      Drained(stores[n], DrainEach(stores[..n], done, ds[..n]), ds[n])
  }

  /** What is reached from each block in the store of its time. */
  ghost function EachHistory(stores: seq<Store>, ds: seq<Digest>): set<Digest>
    requires |stores| == |ds|
  {
    if ds == [] then {}
    else
      var n := |ds| - 1;
      EachHistory(stores[..n], ds[..n]) + Reachable(stores[n], {}, ds[n])
  }

  /** Before every drain the committed set is closed in the store of its time. */
  ghost predicate ClosedThroughout(stores: seq<Store>, done: set<Digest>, ds: seq<Digest>)
    requires |stores| == |ds|
  {
    forall k :: 0 <= k < |ds| ==> ds[k] in stores[k] && Closed(stores[k], DrainEach(stores[..k], done, ds[..k]))
  }

  lemma ClosedBefore(stores: seq<Store>, done: set<Digest>, ds: seq<Digest>)
    requires |stores| == |ds| >= 1 && ClosedThroughout(stores, done, ds)
    ensures var n := |ds| - 1;
      ClosedThroughout(stores[..n], done, ds[..n]) && ds[n] in stores[n] &&
        Closed(stores[n], DrainEach(stores[..n], done, ds[..n]))
  {
    hide Closed; hide DrainEach;
    var n := |ds| - 1;
    forall k | 0 <= k < n
      ensures ds[k] in stores[k] && Closed(stores[k], DrainEach(stores[..n][..k], done, ds[..n][..k]))
    {
      assert stores[..n][..k] == stores[..k] && ds[..n][..k] == ds[..k];
    }
  }

  lemma {:induction false} DrainEachIsUnion(stores: seq<Store>, done: set<Digest>, ds: seq<Digest>)
    requires |stores| == |ds| && ClosedThroughout(stores, done, ds)
    ensures DrainEach(stores, done, ds) == done + EachHistory(stores, ds)
  {
    if ds != [] {
      var n := |ds| - 1;
      ClosedBefore(stores, done, ds);
      DrainEachIsUnion(stores[..n], done, ds[..n]);
      ClosedLosesNothing(stores[n], DrainEach(stores[..n], done, ds[..n]), ds[n]);
    }
  }

  // ----- Complete histories -----

  /** Committed blocks are stored and all their references are committed. */
  ghost predicate Complete(store: Store, done: set<Digest>) {
    forall d :: d in done ==> d in store && forall q :: q in store[d].references ==> q.hash in done
  }

  /** Every block reached from `d` has all its references stored. */
  ghost predicate Full(store: Store, d: Digest) {
    d in store && forall e, q :: Reaches(store, {}, d, e) && q in store[e].references ==> q.hash in store
  }

  lemma CompleteIsClosed(store: Store, done: set<Digest>)
    requires Complete(store, done)
    ensures Closed(store, done)
  {
    forall d, e | d in done && Edge(store, d, e) ensures e in done {
      var q :| q in store[d].references && q.hash == e;
    }
  }

  /** Growth of the store does not matter to a complete set. */
  lemma CompleteGrows(store: Store, store': Store, done: set<Digest>)
    requires Complete(store, done) && StoreGrows(store, store')
    ensures Complete(store', done)
  {
  }

  lemma DrainKeepsComplete(store: Store, done: set<Digest>, d: Digest)
    requires Complete(store, done) && Full(store, d)
    ensures Complete(store, Drained(store, done, d))
  {
    CompleteIsClosed(store, done);
    ClosedLosesNothing(store, done, d);
    var all := done + Reachable(store, {}, d);
    forall e | e in all ensures e in store && forall q :: q in store[e].references ==> q.hash in all {
      if e !in done {
        forall q | q in store[e].references ensures q.hash in all {
          assert Edge(store, e, q.hash);
          ReachesNext(store, {}, d, e, q.hash);
        }
      }
    }
  }

  /** A full history is the same in every later store. */
  lemma FullIsStable(store: Store, store': Store, d: Digest)
    requires Full(store, d) && StoreGrows(store, store')
    ensures Full(store', d) && Reachable(store', {}, d) == Reachable(store, {}, d)
  {
    var all := Reachable(store, {}, d);
    ReachesSelf(store, {}, d);
    forall e | Reaches(store', {}, d, e) ensures e in all {
      forall x, y | x in all && Edge(store', x, y) ensures y in all {
        var q :| q in store'[x].references && q.hash == y;
        assert Edge(store, x, y);
        ReachesNext(store, {}, d, x, y);
      }
      var p :| Path(store', {}, p) && p[0] == d && p[|p| - 1] == e;
      PathStaysIn(store', {}, all, p);
    }
    forall e | e in all ensures Reaches(store', {}, d, e) {
      ReachesLater(store, store', {}, d, e);
    }
  }

  lemma ReachesLater(store: Store, store': Store, done: set<Digest>, d: Digest, e: Digest)
    requires Reaches(store, done, d, e) && StoreGrows(store, store')
    ensures Reaches(store', done, d, e)
  {
    var p :| Path(store, done, p) && p[0] == d && p[|p| - 1] == e;
    forall i | 0 <= i < |p| - 1 ensures Edge(store', p[i], p[i + 1]) {
      assert Edge(store, p[i], p[i + 1]);
      var q :| q in store[p[i]].references && q.hash == p[i + 1];
    }
    assert Path(store', done, p);
  }

  ghost predicate AllFull(stores: seq<Store>, ds: seq<Digest>)
    requires |stores| == |ds|
  {
    forall k :: 0 <= k < |ds| ==> Full(stores[k], ds[k])
  }

  /** Drains of blocks with full histories keep the committed set complete, whatever is stored in between. */
  lemma {:induction false} DrainsKeepComplete(stores: seq<Store>, done: set<Digest>, ds: seq<Digest>, all: Store)
    requires |stores| == |ds| && Growing(stores) && AllFull(stores, ds) && (ds != [] ==> Complete(stores[0], done))
    requires (ds == [] ==> Complete(all, done)) && forall k :: 0 <= k < |ds| ==> StoreGrows(stores[k], all)
    ensures Complete(all, DrainEach(stores, done, ds))
  {
    if ds != [] {
      hide StoreGrows; hide Full; hide Complete; hide Drained;
      var n := |ds| - 1;
      if n == 0 {
        assert stores[..0] == [] && ds[..0] == [];
      } else {
        forall k | 0 <= k < n ensures StoreGrows(stores[..n][k], stores[n]) {
          assert StoreGrows(stores[k], stores[n]);
        }
        DrainsKeepComplete(stores[..n], done, ds[..n], stores[n]);
      }
      var mid := DrainEach(stores[..n], done, ds[..n]);
      assert Full(stores[n], ds[n]) && StoreGrows(stores[n], all);
      DrainKeepsComplete(stores[n], mid, ds[n]);
      CompleteGrows(stores[n], all, Drained(stores[n], mid, ds[n]));
    }
  }

  lemma CompleteIsClosedThroughout(stores: seq<Store>, done: set<Digest>, ds: seq<Digest>)
    requires |stores| == |ds| && Growing(stores) && AllFull(stores, ds) && (ds != [] ==> Complete(stores[0], done))
    ensures ClosedThroughout(stores, done, ds)
  {
    hide StoreGrows; hide Complete; hide Closed; hide DrainEach;
    forall k | 0 <= k < |ds| ensures ds[k] in stores[k] && Closed(stores[k], DrainEach(stores[..k], done, ds[..k])) {
      assert Full(stores[k], ds[k]);
      hide Full;
      forall i | 0 <= i < k ensures StoreGrows(stores[..k][i], stores[k]) {
        assert StoreGrows(stores[i], stores[k]);
      }
      DrainsKeepComplete(stores[..k], done, ds[..k], stores[k]);
      CompleteIsClosed(stores[k], DrainEach(stores[..k], done, ds[..k]));
    }
  }

  /** The causal histories of some blocks in one store. */
  ghost function Histories(store: Store, ds: seq<Digest>): set<Digest> {
    set e | e in store.Keys && exists d :: d in ds && Reaches(store, {}, d, e)
  }

  lemma {:induction false} EachHistoryIsHistory(stores: seq<Store>, ds: seq<Digest>, all: Store)
    requires |stores| == |ds| && AllFull(stores, ds) && forall k :: 0 <= k < |ds| ==> StoreGrows(stores[k], all)
    ensures EachHistory(stores, ds) == Histories(all, ds)
  {
    if ds == [] {
      assert Histories(all, ds) == {};
    } else {
      var n := |ds| - 1;
      assert Full(stores[n], ds[n]) && StoreGrows(stores[n], all);
      hide StoreGrows; hide Full;
      EachHistoryIsHistory(stores[..n], ds[..n], all);
      FullIsStable(stores[n], all, ds[n]);
      hide Reaches;
      var init, d := ds[..n], ds[n];
      assert ds == init + [d];
      forall e ensures e in Histories(all, ds) <==> e in Histories(all, init) || e in Reachable(all, {}, d) {
        if e in Histories(all, ds) {
          var x :| x in ds && Reaches(all, {}, x, e);
          assert x in init || x == d;
        }
      }
    }
  }

  /** The committed set depends only on which blocks were drained: not on their order, and not on when. */
  lemma TimingDoesNotMatter(stores: seq<Store>, ds: seq<Digest>, stores': seq<Store>, es: seq<Digest>,
                            done: set<Digest>, all: Store)
    requires |stores| == |ds| && Growing(stores) && AllFull(stores, ds) && (ds != [] ==> Complete(stores[0], done))
    requires |stores'| == |es| && Growing(stores') && AllFull(stores', es) && (es != [] ==> Complete(stores'[0], done))
    requires forall k :: 0 <= k < |ds| ==> StoreGrows(stores[k], all)
    requires forall k :: 0 <= k < |es| ==> StoreGrows(stores'[k], all)
    requires forall d :: d in ds <==> d in es
    ensures DrainEach(stores, done, ds) == DrainEach(stores', done, es) == done + Histories(all, ds)
  {
    hide StoreGrows; hide Full; hide Complete; hide Reaches; hide DrainEach; hide EachHistory;
    CompleteIsClosedThroughout(stores, done, ds);
    CompleteIsClosedThroughout(stores', done, es);
    DrainEachIsUnion(stores, done, ds);
    DrainEachIsUnion(stores', done, es);
    EachHistoryIsHistory(stores, ds, all);
    EachHistoryIsHistory(stores', es, all);
    assert Histories(all, ds) == Histories(all, es);
  }

  /** While the store grows the committed set stays closed if and only if no reference of a committed
      block that was missing arrives later. */
  lemma GrowthKeepsClosedIff(store: Store, store': Store, done: set<Digest>)
    requires Closed(store, done) && done <= store.Keys && StoreGrows(store, store')
    ensures Closed(store', done) <==> forall d, q :: d in done && q in store[d].references && q.hash in store' ==>
      q.hash in store
  {
    if forall d, q :: d in done && q in store[d].references && q.hash in store' ==> q.hash in store {
      forall d, e | d in done && Edge(store', d, e) ensures e in done {
        var q :| q in store'[d].references && q.hash == e;
        assert Edge(store, d, e);
      }
    } else {
      var d, q :| d in done && q in store[d].references && q.hash in store' && q.hash !in store;
      assert Edge(store', d, q.hash);
    }
  }

  /** A reference that was missing when its block was drained is not committed with that block: it is
      lost even to a second drain after it has arrived. */
  lemma LateReferenceIsLost()
    ensures var b := Block(0, 0, H1, 0, None, []);
      var a := Block(0, 0, H2, 1, None, [BlockQc(0, H1, 0, Hash(b))]);
      var store := map[Hash(a) := a];
      var store' := store[Hash(b) := b];
      var done := Drained(store, {}, Hash(a));
      Hash(a) in done && Hash(b) in Reachable(store', {}, Hash(a)) && Hash(b) !in Drained(store', done, Hash(a))
  {
    var b := Block(0, 0, H1, 0, None, []);
    var a := Block(0, 0, H2, 1, None, [BlockQc(0, H1, 0, Hash(b))]);
    assert Hash(a) == "0011" && Hash(b) == "0000";
    hide Hash;
    var store := map[Hash(a) := a];
    var store' := store[Hash(b) := b];
    ReachesSelf(store, {}, Hash(a));
    ReachesSelf(store', {}, Hash(a));
    assert a.references[0].hash == Hash(b) && a.references[0] in store'[Hash(a)].references;
    assert Edge(store', Hash(a), Hash(b));
    ReachesNext(store', {}, Hash(a), Hash(a), Hash(b));
    NothingBehindDone(store', Drained(store, {}, Hash(a)), Hash(a));
  }

  // ----- What the loop keeps -----

  ghost predicate Waiting(queue: seq<Block>, d: Digest) {
    exists b :: b in queue && Hash(b) == d
  }

  /** A block as it is kept in the store. */
  predicate Kept(store: Store, b: Block) {
    Hash(b) in store && store[Hash(b)] == b
  }

  /** What a newly committed block references in the store `first` is committed or waiting in the queue. */
  ghost predicate Covered(first: Store, done: set<Digest>, committed: set<Digest>, queue: seq<Block>) {
    forall d, e :: d in committed && d !in done && Edge(first, d, e) ==> e in committed || Waiting(queue, e)
  }

  /** The loop that drains `start` over `done`, begun with the store `first`: nothing but what is reached in the
      present store has been committed or queued, and nothing that `first` reaches has been dropped. */
  ghost predicate Sweeping(first: Store, store: Store, done: set<Digest>, start: Digest, committed: set<Digest>,
                           queue: seq<Block>) {
    && done <= committed
    && (forall b :: b in queue ==> Kept(store, b) && (Hash(b) in done || Reaches(store, done, start, Hash(b))))
    && (forall d :: d in committed && d !in done ==> d in store && Reaches(store, done, start, d))
    && (start in committed || Waiting(queue, start))
    && Covered(first, done, committed, queue)
  }

  lemma SweepBegins(store: Store, done: set<Digest>, block: Block)
    requires Kept(store, block)
    ensures Sweeping(store, store, done, Hash(block), done, [block])
  {
    hide Hash;
    if Hash(block) !in done {
      ReachesSelf(store, done, Hash(block));
    }
    assert block in [block];
  }

  lemma SweepLater(first: Store, store: Store, store': Store, done: set<Digest>, start: Digest, committed: set<Digest>,
                   queue: seq<Block>)
    requires Sweeping(first, store, done, start, committed, queue) && StoreGrows(store, store')
    ensures Sweeping(first, store', done, start, committed, queue)
  {
    hide Hash; hide Reaches; hide Covered;
    forall b | b in queue && Hash(b) !in done ensures Reaches(store', done, start, Hash(b)) {
      ReachesLater(store, store', done, start, Hash(b));
    }
    forall d | d in committed && d !in done ensures Reaches(store', done, start, d) {
      ReachesLater(store, store', done, start, d);
    }
  }

  lemma SweepSkips(first: Store, store: Store, done: set<Digest>, start: Digest, committed: set<Digest>,
                   queue: seq<Block>)
    requires Sweeping(first, store, done, start, committed, queue) && queue != [] && Hash(queue[0]) in committed
    ensures Sweeping(first, store, done, start, committed, queue[1..])
  {
    hide Hash; hide Reaches; hide Edge;
    var b, rest := queue[0], queue[1..];
    assert queue == [b] + rest;
    forall d | Waiting([b] + rest, d) && d !in committed ensures Waiting(rest, d) {
      var x :| x in [b] + rest && Hash(x) == d;
      assert x in rest;
    }
  }

  /** The blocks under some references, looked up one after the other while the store grows from `early` to `late`:
      all that were there at the beginning, and nothing that is not there at the end. */
  ghost predicate Found(early: Store, late: Store, qs: seq<BlockQc>, found: seq<Block>) {
    && (forall x :: x in found ==> Referenced(late, qs, x))
    && (forall q :: q in qs && q.hash in early ==> early[q.hash] in found)
  }

  ghost predicate Referenced(store: Store, qs: seq<BlockQc>, x: Block) {
    exists q :: q in qs && q.hash in store && store[q.hash] == x
  }

  lemma Pushed(early: Store, late: Store, b: Block, pushed: seq<Block>, x: Block)
    requires KeyedByHash(late) && Kept(late, b) && Found(early, late, b.references, pushed) && x in pushed
    ensures Kept(late, x) && Edge(late, Hash(b), Hash(x))
  {
    hide Hash;
    assert Referenced(late, b.references, x);
    var q :| q in b.references && q.hash in late && late[q.hash] == x;
  }

  lemma PushedAll(first: Store, early: Store, late: Store, b: Block, pushed: seq<Block>, e: Digest)
    requires KeyedByHash(early) && StoreGrows(first, early) && StoreGrows(early, late)
    requires Kept(late, b) && Found(early, late, b.references, pushed) && Edge(first, Hash(b), e)
    ensures Waiting(pushed, e)
  {
    hide Hash;
    var q :| q in first[Hash(b)].references && q.hash == e;
    assert q in b.references;
    assert early[e] in pushed && Hash(early[e]) == e;
  }

  lemma SweepPushes(first: Store, early: Store, late: Store, done: set<Digest>, start: Digest,
                    committed: set<Digest>, queue: seq<Block>, pushed: seq<Block>)
    requires KeyedByHash(early) && KeyedByHash(late) && StoreGrows(first, early) && StoreGrows(early, late)
    requires Sweeping(first, late, done, start, committed, queue)
    requires queue != [] && Hash(queue[0]) !in committed && Found(early, late, queue[0].references, pushed)
    ensures Sweeping(first, late, done, start, committed + {Hash(queue[0])}, (queue + pushed)[1..])
  {
    hide Hash; hide Reaches; hide Edge; hide Found; hide StoreGrows; hide KeyedByHash;
    var b, rest := queue[0], queue[1..];
    assert queue == [b] + rest && (queue + pushed)[1..] == rest + pushed;
    var d := Hash(b);
    assert b in [b] + rest;
    forall x | x in pushed ensures Kept(late, x) && (Hash(x) in done || Reaches(late, done, start, Hash(x))) {
      Pushed(early, late, b, pushed, x);
      if Hash(x) !in done {
        ReachesNext(late, done, start, d, Hash(x));
      }
    }
    forall e | Waiting([b] + rest, e) && e != d ensures Waiting(rest + pushed, e) {
      var x :| x in [b] + rest && Hash(x) == e;
      assert x in rest + pushed;
    }
    forall e | Edge(first, d, e) ensures Waiting(rest + pushed, e) {
      PushedAll(first, early, late, b, pushed, e);
      var x :| x in pushed && Hash(x) == e;
      assert x in rest + pushed;
    }
  }

  /** The references of the first block in the queue have been looked up. */
  lemma PushStep(stores: seq<Store>, first: Store, now: nat, later: nat, done: set<Digest>, start: Digest,
                 committed: set<Digest>, queue: seq<Block>, pushed: seq<Block>)
    requires stores != [] && Growing(stores) && now <= later && StoreGrows(first, Now(stores, now))
    requires forall k: nat :: KeyedByHash(Now(stores, k))
    requires Sweeping(first, Now(stores, now), done, start, committed, queue) && queue != []
    requires Hash(queue[0]) !in committed && Found(Now(stores, now), Now(stores, later), queue[0].references, pushed)
    ensures Sweeping(first, Now(stores, later), done, start, committed + {Hash(queue[0])}, (queue + pushed)[1..])
  {
    hide *;
    NowGrows(stores, now, later);
    SweepLater(first, Now(stores, now), Now(stores, later), done, start, committed, queue);
    SweepPushes(first, Now(stores, now), Now(stores, later), done, start, committed, queue, pushed);
  }

  lemma NextMoment(stores: seq<Store>, first: Store, now: nat, later: nat, done: set<Digest>, start: Digest,
                   committed: set<Digest>, queue: seq<Block>)
    requires stores != [] && Growing(stores) && now <= later && first == Now(stores, now)
    requires Sweeping(first, Now(stores, later), done, start, committed, queue)
    ensures Sweeping(first, Now(stores, later + 1), done, start, committed, queue)
    ensures StoreGrows(first, Now(stores, later + 1))
  {
    hide *;
    NowGrows(stores, later, later + 1);
    NowGrows(stores, now, later + 1);
    SweepLater(first, Now(stores, later), Now(stores, later + 1), done, start, committed, queue);
  }

  lemma SweepEnds(first: Store, store: Store, done: set<Digest>, start: Digest, committed: set<Digest>)
    requires Sweeping(first, store, done, start, committed, []) && start in first
    ensures Drained(first, done, start) <= committed <= Drained(store, done, start)
  {
    forall e | e in Reachable(first, done, start) ensures e in committed {
      var p :| Path(first, done, p) && p[0] == start && p[|p| - 1] == e;
      PathStaysIn(first, done, committed, p);
    }
  }

  /** With a full history, growth of the store during the drain does not matter. */
  lemma DrainIsStable(store: Store, store': Store, done: set<Digest>, d: Digest)
    requires Complete(store, done) && Full(store, d) && StoreGrows(store, store')
    ensures Drained(store, done, d) == Drained(store', done, d)
  {
    CompleteGrows(store, store', done);
    CompleteIsClosed(store, done);
    CompleteIsClosed(store', done);
    FullIsStable(store, store', d);
    ClosedLosesNothing(store, done, d);
    ClosedLosesNothing(store', done, d);
  }

  // ----- The object -----

  /** DAGCommitor: the loop behind the channel. */
  class Committer {
    var committed: set<Digest>
    var log: seq<Digest>     // what was announced on the commit channel

    constructor ()
      ensures Logged(log, committed) && committed == {} && log == []
    {
      committed, log := {}, [];
    }

    /** One block is drained while the store may grow: what the store reached at the beginning is committed,
        nothing is committed that the store does not reach at the end, and each is announced exactly once. */
    method Drain(stores: seq<Store>, now: nat, block: Block) returns (later: nat)
      requires Logged(log, committed) && stores != [] && Growing(stores) && Kept(Now(stores, now), block)
      requires forall k: nat :: KeyedByHash(Now(stores, k))
      modifies this`committed, this`log
      ensures Logged(log, committed) && old(log) <= log && now <= later
      ensures Drained(Now(stores, now), old(committed), Hash(block)) <= committed
      ensures committed <= Drained(Now(stores, later), old(committed), Hash(block))
      ensures Complete(Now(stores, now), old(committed)) && Full(Now(stores, now), Hash(block)) ==>
        committed == Drained(Now(stores, now), old(committed), Hash(block))
    {
      hide *;
      ghost var done, start, first := committed, Hash(block), Now(stores, now);
      ghost var all := Now(stores, |stores|);
      var queue := [block];
      later := now;
      SweepBegins(first, done, block);
      StoreGrowsSelf(first);
      KeptIn(first, block);
      while |queue| > 0
        invariant now <= later && StoreGrows(first, Now(stores, later))
        invariant Logged(log, committed) && old(log) <= log
        invariant Sweeping(first, Now(stores, later), done, start, committed, queue)
        decreases |all.Keys - committed|, |queue|
      {
        var store := Now(stores, later);
        var b := queue[0];
        var digest := Hash(b);
        ghost var before := committed;
        if digest !in committed {
          SweepKeeps(first, store, done, start, committed, queue);
          InAll(stores, later, digest);
          LogAppends(log, committed, digest);
          committed := committed + {digest};
          log := log + [digest];
          var pushed, after := StoredReferences(stores, later, b);
          PushStep(stores, first, later, after, done, start, before, queue, pushed);
          queue := queue + pushed;
          later := after;
          FewerLeft(all.Keys, before, digest);
        } else {
          SweepSkips(first, store, done, start, committed, queue);
        }
        queue := queue[1..];
        NextMoment(stores, first, now, later, done, start, committed, queue);
        later := later + 1;
      }
      assert queue == [];
      SweepEnds(first, Now(stores, later), done, start, committed);
      if Complete(first, done) && Full(first, start) {
        DrainIsStable(first, Now(stores, later), done, start);
      }
    }

    /** The loop over the channel; `times` are the moments at which the drains begin. */
    method Run(stores: seq<Store>, now: nat, blocks: seq<Block>) returns (times: seq<nat>)
      requires Logged(log, committed) && stores != [] && Growing(stores) && forall k: nat :: KeyedByHash(Now(stores, k))
      requires forall b :: b in blocks ==> Kept(Now(stores, now), b)
      modifies this
      ensures Logged(log, committed) && old(log) <= log && |times| == |blocks|
      ensures forall i :: 0 <= i < |times| ==> now <= times[i]
      ensures forall i, j :: 0 <= i <= j < |times| ==> times[i] <= times[j]
      ensures Complete(Now(stores, now), old(committed)) && AllFull(At(stores, times), Hashes(blocks)) ==>
        committed == DrainEach(At(stores, times), old(committed), Hashes(blocks))
    {
      hide *;
      times := [];
      var later := now;
      NoDrains(stores, committed);
      while |times| < |blocks|
        invariant Logged(log, committed) && old(log) <= log && |times| <= |blocks| && now <= later
        invariant forall i :: 0 <= i < |times| ==> now <= times[i] <= later
        invariant forall i, j :: 0 <= i <= j < |times| ==> times[i] <= times[j]
        invariant Drains(stores, now, times, blocks[..|times|], old(committed), committed)
      {
        var b := blocks[|times|];
        KeptLater(stores, now, later, b);
        ghost var before := committed;
        var start := later;
        assert blocks[..|times| + 1] == blocks[..|times|] + [b];
        later := Drain(stores, later, b);
        DrainsOn(stores, now, times, start, blocks[..|times|], b, old(committed), before, committed);
        times := times + [start];
      }
      assert blocks[..|times|] == blocks;
      DrainsDone(stores, now, times, blocks, old(committed), committed);
    }
  }

  /** The stores at some moments. */
  ghost function At(stores: seq<Store>, times: seq<nat>): (r: seq<Store>)
    requires stores != []
    ensures |r| == |times| && forall i :: 0 <= i < |r| ==> r[i] == Now(stores, times[i])
  {
    seq(|times|, i requires 0 <= i < |times| => Now(stores, times[i]))
  }

  ghost function Hashes(bs: seq<Block>): (r: seq<Digest>)
    ensures |r| == |bs| && forall i :: 0 <= i < |r| ==> r[i] == Hash(bs[i])
  {
    seq(|bs|, i requires 0 <= i < |bs| => Hash(bs[i]))
  }

  /** What the drains so far have committed, when the histories were there. */
  ghost predicate Drains(stores: seq<Store>, now: nat, times: seq<nat>, bs: seq<Block>, done: set<Digest>,
                         committed: set<Digest>) {
    && stores != [] && |times| == |bs|
    && (Complete(Now(stores, now), done) && AllFull(At(stores, times), Hashes(bs)) ==>
          committed == DrainEach(At(stores, times), done, Hashes(bs)))
  }

  lemma NoDrains(stores: seq<Store>, done: set<Digest>)
    requires stores != []
    ensures forall now: nat, bs: seq<Block> :: bs == [] ==> Drains(stores, now, [], bs, done, done)
  {
  }

  lemma DrainsDone(stores: seq<Store>, now: nat, times: seq<nat>, bs: seq<Block>, done: set<Digest>,
                   committed: set<Digest>)
    requires Drains(stores, now, times, bs, done, committed)
    ensures stores != [] && |times| == |bs|
    ensures Complete(Now(stores, now), done) && AllFull(At(stores, times), Hashes(bs)) ==>
      committed == DrainEach(At(stores, times), done, Hashes(bs))
  {
  }

  lemma DrainsOn(stores: seq<Store>, now: nat, times: seq<nat>, t: nat, bs: seq<Block>, b: Block, done: set<Digest>,
                 mid: set<Digest>, committed: set<Digest>)
    requires stores != [] && Growing(stores) && Drains(stores, now, times, bs, done, mid) && now <= t
    requires forall i :: 0 <= i < |times| ==> now <= times[i] <= t
    requires forall i, j :: 0 <= i <= j < |times| ==> times[i] <= times[j]
    requires Complete(Now(stores, t), mid) && Full(Now(stores, t), Hash(b)) ==>
      committed == Drained(Now(stores, t), mid, Hash(b))
    ensures Drains(stores, now, times + [t], bs + [b], done, committed)
  {
    hide Hash; hide Full; hide Growing; hide Now;
    var ts, cs := times + [t], bs + [b];
    var n := |times|;
    var ss, ds := At(stores, ts), Hashes(cs);
    assert ss[..n] == At(stores, times) && ds[..n] == Hashes(bs) && ss[n] == Now(stores, t) && ds[n] == Hash(b);
    if Complete(Now(stores, now), done) && AllFull(ss, ds) {
      assert Full(ss[n], ds[n]);
      assert AllFull(ss[..n], ds[..n]) by {
        forall k | 0 <= k < n ensures Full(ss[..n][k], ds[..n][k]) { assert Full(ss[k], ds[k]); }
      }
      assert mid == DrainEach(ss[..n], done, ds[..n]);
      StoresGrow(stores, now, times, t, done);
      hide Complete; hide Drained; hide DrainEach;
      DrainsKeepComplete(ss[..n], done, ds[..n], ss[n]);
      LastDrain(ss, done, ds);
    }
  }

  lemma LastDrain(ss: seq<Store>, done: set<Digest>, ds: seq<Digest>)
    requires |ss| == |ds| >= 1
    ensures var n := |ds| - 1; DrainEach(ss, done, ds) == Drained(ss[n], DrainEach(ss[..n], done, ds[..n]), ds[n])
  {
  }

  lemma StoresGrow(stores: seq<Store>, now: nat, times: seq<nat>, t: nat, done: set<Digest>)
    requires stores != [] && Growing(stores) && now <= t && Complete(Now(stores, now), done)
    requires forall i :: 0 <= i < |times| ==> now <= times[i] <= t
    requires forall i, j :: 0 <= i <= j < |times| ==> times[i] <= times[j]
    ensures Growing(At(stores, times))
    ensures forall i :: 0 <= i < |times| ==> StoreGrows(At(stores, times)[i], Now(stores, t))
    ensures (times != [] ==> Complete(At(stores, times)[0], done)) && Complete(Now(stores, t), done)
  {
    hide Complete; hide StoreGrows; hide Now;
    var r := At(stores, times);
    forall i, j | 0 <= i <= j < |r| ensures StoreGrows(r[i], r[j]) {
      NowGrows(stores, times[i], times[j]);
    }
    forall i | 0 <= i < |r| ensures StoreGrows(r[i], Now(stores, t)) {
      NowGrows(stores, times[i], t);
    }
    NowGrows(stores, now, t);
    CompleteGrows(Now(stores, now), Now(stores, t), done);
    if times != [] {
      NowGrows(stores, now, times[0]);
      CompleteGrows(Now(stores, now), r[0], done);
    }
  }

  lemma KeptIn(store: Store, b: Block)
    requires Kept(store, b)
    ensures Hash(b) in store
  {
  }

  lemma KeptLater(stores: seq<Store>, now: nat, later: nat, b: Block)
    requires stores != [] && Growing(stores) && now <= later && Kept(Now(stores, now), b)
    ensures Kept(Now(stores, later), b)
  {
    hide Hash; hide Growing;
    NowGrows(stores, now, later);
  }

  lemma InAll(stores: seq<Store>, k: nat, d: Digest)
    requires stores != [] && Growing(stores) && d in Now(stores, k)
    ensures d in Now(stores, |stores|)
  {
    hide Growing;
    if k < |stores| {
      NowGrows(stores, k, |stores|);
    }
  }

  /** What is found under some references, each looked up at its own moment. */
  function Lookups(stores: seq<Store>, now: nat, qs: seq<BlockQc>): seq<Block>
    requires stores != []
  {
    if qs == [] then []
    else
      var k := |qs| - 1;
      var store := Now(stores, now + k);
      Lookups(stores, now, qs[..k]) + (if qs[k].hash in store then [store[qs[k].hash]] else [])
  }

  lemma FoundLater(early: Store, mid: Store, late: Store, qs: seq<BlockQc>, found: seq<Block>)
    requires Found(early, mid, qs, found) && StoreGrows(mid, late)
    ensures Found(early, late, qs, found)
  {
    forall x | x in found ensures Referenced(late, qs, x) {
      assert Referenced(mid, qs, x);
      var q :| q in qs && q.hash in mid && mid[q.hash] == x;
      assert late[q.hash] == x;
    }
  }

  lemma FoundOne(early: Store, late: Store, qs: seq<BlockQc>, found: seq<Block>, q: BlockQc)
    requires Found(early, late, qs, found) && StoreGrows(early, late)
    ensures Found(early, late, qs + [q], found + (if q.hash in late then [late[q.hash]] else []))
  {
    var now := if q.hash in late then [late[q.hash]] else [];
    forall x | x in found + now ensures Referenced(late, qs + [q], x) {
      if x in found {
        assert Referenced(late, qs, x);
        var o :| o in qs && o.hash in late && late[o.hash] == x;
        assert o in qs + [q];
      } else {
        assert q in qs + [q];
      }
    }
  }

  lemma {:induction false} LookupsFind(stores: seq<Store>, now: nat, qs: seq<BlockQc>)
    requires stores != [] && Growing(stores)
    ensures Found(Now(stores, now), Now(stores, now + |qs|), qs, Lookups(stores, now, qs))
  {
    hide Now; hide Growing; hide StoreGrows;
    if qs != [] {
      hide Found;
      var k := |qs| - 1;
      var init := qs[..k];
      assert qs == init + [qs[k]] && |init| == k;
      LookupsFind(stores, now, init);
      NowGrows(stores, now, now + k);
      NowGrows(stores, now + k, now + k + 1);
      FoundOne(Now(stores, now), Now(stores, now + k), init, Lookups(stores, now, init), qs[k]);
      FoundLater(Now(stores, now), Now(stores, now + k), Now(stores, now + |qs|), qs, Lookups(stores, now, qs));
    }
  }

  /** The blocks stored under the references of a block, looked up one by one; references that are not stored are
      skipped. */
  method StoredReferences(stores: seq<Store>, now: nat, b: Block) returns (pushed: seq<Block>, later: nat)
    requires stores != [] && Growing(stores)
    ensures later == now + |b.references| && pushed == Lookups(stores, now, b.references)
    ensures Found(Now(stores, now), Now(stores, later), b.references, pushed)
  {
    pushed := [];
    for i := 0 to |b.references|
      invariant pushed == Lookups(stores, now, b.references[..i])
    {
      var q := b.references[i];
      assert b.references[..i + 1][..i] == b.references[..i];
      var store := Now(stores, now + i);
      if q.hash in store {
        pushed := pushed + [store[q.hash]];
      }
    }
    later := now + |b.references|;
    assert b.references[..|b.references|] == b.references;
    LookupsFind(stores, now, b.references);
  }

  lemma SweepKeeps(first: Store, store: Store, done: set<Digest>, start: Digest, committed: set<Digest>,
                   queue: seq<Block>)
    requires Sweeping(first, store, done, start, committed, queue) && queue != []
    ensures Kept(store, queue[0]) && Hash(queue[0]) in store
  {
  }

  lemma FewerLeft(keys: set<Digest>, committed: set<Digest>, d: Digest)
    requires d in keys && d !in committed
    ensures |keys - (committed + {d})| < |keys - committed|
  {
    assert keys - committed == (keys - (committed + {d})) + {d};
  }
}
