/** The commit loop of the chained protocols (Commitor): a walk over parents, committed oldest first. The store
    grows while the loop runs, and the walk asks again for a parent it does not find. */
module ChainCommit {
  import opened Blocks
  import opened CommitLog

  /** The ancestors of a block up to the first one in `done` are stored, each at a lower position. */
  ghost predicate Rooted(store: Store, done: set<Digest>, b: Block)
    decreases LayerOf(b)
  {
    || Hash(b) in done
    || b.qc.None?
    || (var d := b.qc.value.hash;
        d in store && Hash(store[d]) == d && LayerOf(store[d]) < LayerOf(b) && Rooted(store, done, store[d]))
  }

  /** All ancestors of a block are stored. */
  ghost predicate Linked(store: Store, b: Block) {
    Rooted(store, {}, b)
  }

  ghost predicate Stored(store: Store, b: Block) {
    Hash(b) in store && store[Hash(b)] == b
  }

  ghost predicate Kept(store: Store, b: Block) {
    Stored(store, b) && Linked(store, b)
  }

  /** The parent of a block that has one. */
  function Parent(store: Store, b: Block): Block
    requires b.qc.Some? && b.qc.value.hash in store
  {
    store[b.qc.value.hash]
  }

  lemma ParentRooted(store: Store, done: set<Digest>, b: Block)
    requires Rooted(store, done, b) && Hash(b) !in done && b.qc.Some?
    ensures b.qc.value.hash in store && Stored(store, Parent(store, b)) && Rooted(store, done, Parent(store, b))
    ensures Hash(Parent(store, b)) == b.qc.value.hash && LayerOf(Parent(store, b)) < LayerOf(b)
  {
  }

  /** What draining a block logs: its ancestors from the first committed one on, oldest first. */
  ghost function Fresh(store: Store, done: set<Digest>, b: Block): seq<Digest>
    requires Rooted(store, done, b)
    decreases LayerOf(b)
  {
    if Hash(b) in done then []
    else if b.qc.None? then [Hash(b)]
    else Fresh(store, done, Parent(store, b)) + [Hash(b)]
  }

  /** The block and its ancestors, oldest first. */
  ghost function Chain(store: Store, b: Block): seq<Digest>
    requires Linked(store, b)
  {
    Fresh(store, {}, b)
  }

  ghost function Elements(s: seq<Digest>): set<Digest> {
    set d | d in s
  }

  lemma Append(s: seq<Digest>, d: Digest)
    ensures Elements(s + [d]) == Elements(s) + {d}
  {
  }

  lemma {:induction false} RootedWider(store: Store, done: set<Digest>, wider: set<Digest>, b: Block)
    requires Rooted(store, done, b) && done <= wider
    ensures Rooted(store, wider, b)
    decreases LayerOf(b)
  {
    if Hash(b) !in done && b.qc.Some? {
      ParentRooted(store, done, b);
      RootedWider(store, done, wider, Parent(store, b));
    }
  }

  /** A drain does not depend on when the ancestors it logs arrived. */
  lemma {:induction false} GrowthKeepsFresh(s: Store, t: Store, done: set<Digest>, b: Block)
    requires StoreGrows(s, t) && Rooted(s, done, b)
    ensures Rooted(t, done, b) && Fresh(t, done, b) == Fresh(s, done, b)
    decreases LayerOf(b)
  {
    if Hash(b) !in done && b.qc.Some? {
      ParentRooted(s, done, b);
      GrowthKeepsFresh(s, t, done, Parent(s, b));
    }
  }

  // ----- One drain -----

  /** Committed blocks have their parents committed. */
  ghost predicate ParentClosed(store: Store, done: set<Digest>) {
    forall b :: Hash(b) in done && Kept(store, b) && b.qc.Some? ==> b.qc.value.hash in done
  }

  /** A drain is strictly increasing in (view, height), and logs nothing twice. */
  lemma {:induction false} FreshIncreases(store: Store, done: set<Digest>, b: Block)
    requires Stored(store, b) && Rooted(store, done, b)
    ensures forall d :: d in Fresh(store, done, b) ==>
      d in store && Hash(store[d]) == d && d !in done && LayerOf(store[d]) <= LayerOf(b)
    ensures forall i, j :: 0 <= i < j < |Fresh(store, done, b)| ==>
      LayerOf(store[Fresh(store, done, b)[i]]) < LayerOf(store[Fresh(store, done, b)[j]])
    decreases LayerOf(b)
  {
    if Hash(b) !in done && b.qc.Some? {
      ParentRooted(store, done, b);
      FreshIncreases(store, done, Parent(store, b));
      hide Hash; hide Rooted;
      assert forall d :: d in Fresh(store, done, Parent(store, b)) ==> LayerOf(store[d]) < LayerOf(b);
    }
  }

  lemma {:induction false} ChainStays(store: Store, done: set<Digest>, b: Block)
    requires Kept(store, b) && ParentClosed(store, done) && Hash(b) in done
    ensures Elements(Chain(store, b)) <= done
    decreases LayerOf(b)
  {
    if b.qc.Some? {
      ParentRooted(store, {}, b);
      ChainStays(store, done, Parent(store, b));
    }
  }

  /** Stopping at the first committed ancestor loses nothing. */
  lemma {:induction false} FreshCompletesChain(store: Store, done: set<Digest>, b: Block)
    requires Kept(store, b) && ParentClosed(store, done)
    ensures Rooted(store, done, b) && done + Elements(Fresh(store, done, b)) == done + Elements(Chain(store, b))
    decreases LayerOf(b)
  {
    if Hash(b) in done {
      ChainStays(store, done, b);
    } else if b.qc.Some? {
      ParentRooted(store, {}, b);
      FreshCompletesChain(store, done, Parent(store, b));
      hide ParentClosed; hide Hash;
      Append(Fresh(store, done, Parent(store, b)), Hash(b));
      Append(Chain(store, Parent(store, b)), Hash(b));
    }
  }

  ghost predicate Exact(store: Store, done: set<Digest>, b: Block) {
    && Rooted(store, done, b) && Linked(store, b)
    && done + Elements(Fresh(store, done, b)) == done + Elements(Chain(store, b))
  }

  /** Every stored block is committed with exactly its ancestors if and only if the parents of committed
      blocks are committed. */
  lemma DrainExactIffParentClosed(store: Store, done: set<Digest>)
    ensures (forall b :: Kept(store, b) ==> Exact(store, done, b)) <==> ParentClosed(store, done)
  {
    if ParentClosed(store, done) {
      forall b | Kept(store, b) ensures Exact(store, done, b) {
        FreshCompletesChain(store, done, b);
      }
    } else {
      var b :| Hash(b) in done && Kept(store, b) && b.qc.Some? && b.qc.value.hash !in done;
      ParentRooted(store, {}, b);
      hide Hash;
      var d := b.qc.value.hash;
      ChainEnds(store, Parent(store, b));
      assert d in Chain(store, b);
      assert d in done + Elements(Chain(store, b));
      assert Fresh(store, done, b) == [];
    }
  }

  lemma ChainEnds(store: Store, b: Block)
    requires Linked(store, b)
    ensures Hash(b) in Chain(store, b)
  {
    assert Chain(store, b)[|Chain(store, b)| - 1] == Hash(b);
  }

  // ----- Committed sets over a growing store -----

  /** Every committed block is stored under its hash, and its parent is committed and comes earlier. */
  ghost predicate ParentComplete(store: Store, done: set<Digest>) {
    forall d :: d in done ==>
      && d in store && Hash(store[d]) == d
      && (store[d].qc.Some? ==>
            var e := store[d].qc.value.hash;
            e in done && e in store && LayerOf(store[e]) < LayerOf(store[d]))
  }

  /** Nothing that arrives later can undo it. */
  lemma CompleteGrows(s: Store, t: Store, done: set<Digest>)
    requires StoreGrows(s, t) && ParentComplete(s, done)
    ensures ParentComplete(t, done)
  {
    hide Hash;
  }

  lemma CompleteIsClosed(store: Store, done: set<Digest>)
    requires ParentComplete(store, done)
    ensures ParentClosed(store, done)
  {
    hide Hash; hide Linked;
  }

  /** A committed block has all its ancestors stored. */
  lemma {:induction false} CommittedIsLinked(store: Store, done: set<Digest>, d: Digest)
    requires ParentComplete(store, done) && d in done
    ensures d in store && Linked(store, store[d])
    decreases if d in store then LayerOf(store[d]) else 0
  {
    if store[d].qc.Some? {
      CommittedIsLinked(store, done, store[d].qc.value.hash);
    }
  }

  /** A walk that ends at a committed block could have gone on to the first block. */
  lemma {:induction false} RootedIsLinked(store: Store, done: set<Digest>, b: Block)
    requires ParentComplete(store, done) && Stored(store, b) && Rooted(store, done, b)
    ensures Linked(store, b)
    decreases LayerOf(b)
  {
    if Hash(b) in done {
      CommittedIsLinked(store, done, Hash(b));
    } else if b.qc.Some? {
      ParentRooted(store, done, b);
      RootedIsLinked(store, done, Parent(store, b));
    }
  }

  lemma FreshHasLast(store: Store, done: set<Digest>, b: Block)
    requires Rooted(store, done, b)
    ensures Hash(b) in done + Elements(Fresh(store, done, b))
  {
    if Hash(b) !in done {
      var f := Fresh(store, done, b);
      assert f[|f| - 1] == Hash(b);
    }
  }

  lemma {:induction false} DrainKeepsComplete(store: Store, done: set<Digest>, b: Block)
    requires ParentComplete(store, done) && Stored(store, b) && Rooted(store, done, b)
    ensures ParentComplete(store, done + Elements(Fresh(store, done, b)))
    decreases LayerOf(b)
  {
    hide Hash;
    if Hash(b) in done {
      assert done + Elements(Fresh(store, done, b)) == done;
    } else if b.qc.None? {
      assert Elements([Hash(b)]) == {Hash(b)};
    } else {
      ParentRooted(store, done, b);
      var p := Parent(store, b);
      DrainKeepsComplete(store, done, p);
      FreshHasLast(store, done, p);
      Append(Fresh(store, done, p), Hash(b));
      assert done + Elements(Fresh(store, done, b)) == done + Elements(Fresh(store, done, p)) + {Hash(b)};
    }
  }

  // ----- A sequence of drains -----

  ghost predicate AllKept(store: Store, bs: seq<Block>) {
    forall k :: 0 <= k < |bs| ==> Kept(store, bs[k])
  }

  /** The blocks are drained one after the other, each over the store at the end of its walk. */
  ghost function DrainEach(stores: seq<Store>, done: set<Digest>, bs: seq<Block>): set<Digest>
    requires |stores| == |bs|
  {
    if bs == [] then done
    else
      var k := |bs| - 1;
      var mid := DrainEach(stores[..k], done, bs[..k]);
      if Rooted(stores[k], mid, bs[k]) then mid + Elements(Fresh(stores[k], mid, bs[k])) else mid
  }

  ghost function Ancestors(store: Store, bs: seq<Block>): set<Digest>
    requires AllKept(store, bs)
  {
    if bs == [] then {} else Ancestors(store, bs[..|bs| - 1]) + Elements(Chain(store, bs[|bs| - 1]))
  }

  /** Each block was there with its ancestors when its drain ended, and nothing is overwritten afterwards. */
  ghost predicate InTime(stores: seq<Store>, bs: seq<Block>, store: Store) {
    && |stores| == |bs|
    && (forall k :: 0 <= k < |bs| ==> Kept(stores[k], bs[k]) && StoreGrows(stores[k], store))
  }

  lemma InTimeIsKept(stores: seq<Store>, bs: seq<Block>, store: Store)
    requires InTime(stores, bs, store)
    ensures AllKept(store, bs)
  {
    hide Hash; hide StoreGrows;
    forall k | 0 <= k < |bs| ensures Kept(store, bs[k]) {
      StoredLater(stores[k], store, bs[k]);
      GrowthKeepsFresh(stores[k], store, {}, bs[k]);
    }
  }

  lemma StoredLater(s: Store, t: Store, b: Block)
    requires Stored(s, b) && StoreGrows(s, t)
    ensures Stored(t, b)
  {
    hide Hash;
  }

  /** Whenever the blocks arrived and the drains ran, the committed set is the union of the ancestor chains of
      the drained blocks. */
  lemma {:induction false} DrainEachIsUnion(stores: seq<Store>, done: set<Digest>, bs: seq<Block>, store: Store)
    requires InTime(stores, bs, store) && Growing(stores) && (bs != [] ==> ParentComplete(stores[0], done))
    ensures AllKept(store, bs) && DrainEach(stores, done, bs) == done + Ancestors(store, bs)
    ensures bs != [] ==> ParentComplete(stores[|bs| - 1], DrainEach(stores, done, bs))
  {
    hide Hash; hide Kept; hide StoreGrows; hide ParentComplete; hide Rooted; hide Linked;
    InTimeIsKept(stores, bs, store);
    if bs != [] {
      var k := |bs| - 1;
      var before, now, b := stores[..k], stores[k], bs[k];
      assert InTime(before, bs[..k], store);
      assert Growing(before);
      DrainEachIsUnion(before, done, bs[..k], store);
      var mid := DrainEach(before, done, bs[..k]);
      assert StoreGrows(stores[if k == 0 then 0 else k - 1], stores[k]);
      CompleteGrows(stores[if k == 0 then 0 else k - 1], now, mid);
      assert Kept(now, b) && StoreGrows(now, store);
      OneDrain(now, store, mid, b);
    }
  }

  lemma OneDrain(now: Store, store: Store, mid: set<Digest>, b: Block)
    requires ParentComplete(now, mid) && Kept(now, b) && StoreGrows(now, store)
    ensures Rooted(now, mid, b) && Linked(store, b)
    ensures mid + Elements(Fresh(now, mid, b)) == mid + Elements(Chain(store, b))
    ensures ParentComplete(now, mid + Elements(Fresh(now, mid, b)))
  {
    hide Hash; hide ParentComplete; hide Rooted; hide StoreGrows; hide ParentClosed; hide Fresh;
    CompleteIsClosed(now, mid);
    FreshCompletesChain(now, mid, b);
    GrowthKeepsFresh(now, store, {}, b);
    DrainKeepsComplete(now, mid, b);
  }

  /** Two loops that drain the same blocks, each at its own pace, commit the same set. */
  lemma TimingDoesNotMatter(stores: seq<Store>, stores': seq<Store>, bs: seq<Block>, store: Store)
    requires InTime(stores, bs, store) && InTime(stores', bs, store) && Growing(stores) && Growing(stores')
    ensures DrainEach(stores, {}, bs) == DrainEach(stores', {}, bs)
  {
    assert bs != [] ==> ParentComplete(stores[0], {}) && ParentComplete(stores'[0], {});
    DrainEachIsUnion(stores, {}, bs, store);
    DrainEachIsUnion(stores', {}, bs, store);
  }

  // ----- The log -----

  /** Every parent is logged before its child. */
  ghost predicate ParentFirst(store: Store, log: seq<Digest>) {
    forall i :: 0 <= i < |log| ==>
      log[i] in store && (store[log[i]].qc.Some? ==> store[log[i]].qc.value.hash in log[..i])
  }

  lemma LogOne(store: Store, log: seq<Digest>, done: set<Digest>, b: Block)
    requires Logged(log, done) && ParentFirst(store, log) && Stored(store, b) && Hash(b) !in done
    requires b.qc.Some? ==> b.qc.value.hash in done
    ensures Logged(log + [Hash(b)], done + {Hash(b)}) && ParentFirst(store, log + [Hash(b)])
  {
    hide Hash;
    var log' := log + [Hash(b)];
    LogAppends(log, done, Hash(b));
    forall i | 0 <= i < |log'|
      ensures log'[i] in store && (store[log'[i]].qc.Some? ==> store[log'[i]].qc.value.hash in log'[..i])
    {
      if i < |log| {
        assert log'[..i] == log[..i];
      } else {
        assert log'[..i] == log;
      }
    }
  }

  /** A drain extends the log by ancestors only, parents first. */
  lemma {:induction false} LogFresh(store: Store, log: seq<Digest>, done: set<Digest>, b: Block)
    requires Logged(log, done) && ParentFirst(store, log) && Stored(store, b) && Rooted(store, done, b)
    ensures Logged(log + Fresh(store, done, b), done + Elements(Fresh(store, done, b)))
    ensures ParentFirst(store, log + Fresh(store, done, b))
    ensures Hash(b) in done + Elements(Fresh(store, done, b))
    decreases LayerOf(b)
  {
    hide Hash; hide Logged; hide ParentFirst;
    if Hash(b) in done {
      assert log + Fresh(store, done, b) == log && done + Elements(Fresh(store, done, b)) == done;
    } else if b.qc.None? {
      LogOne(store, log, done, b);
      assert Elements([Hash(b)]) == {Hash(b)};
    } else {
      ParentRooted(store, done, b);
      var p := Parent(store, b);
      var f := Fresh(store, done, p);
      LogFresh(store, log, done, p);
      BelowNotFresh(store, done, b);
      LogOne(store, log + f, done + Elements(f), b);
      Append(f, Hash(b));
      assert (log + f) + [Hash(b)] == log + (f + [Hash(b)]);
      assert (done + Elements(f)) + {Hash(b)} == done + (Elements(f) + {Hash(b)});
    }
  }

  lemma BelowNotFresh(store: Store, done: set<Digest>, b: Block)
    requires Stored(store, b) && Rooted(store, done, b) && Hash(b) !in done && b.qc.Some?
    ensures b.qc.value.hash in store && Rooted(store, done, Parent(store, b))
    ensures Hash(b) !in Elements(Fresh(store, done, Parent(store, b)))
  {
    ParentRooted(store, done, b);
    FreshIncreases(store, done, Parent(store, b));
  }

  // ----- The object -----

  ghost function Backwards(queue: seq<Block>): seq<Digest> {
    if queue == [] then [] else [Hash(queue[|queue| - 1])] + Backwards(queue[..|queue| - 1])
  }

  lemma BackwardsPush(queue: seq<Block>, b: Block)
    ensures Backwards(queue + [b]) == [Hash(b)] + Backwards(queue)
  {
    assert (queue + [b])[..|queue + [b]| - 1] == queue;
  }

  /** The blocks from index `i` on have been committed, from the last one down. */
  ghost predicate Said(queue: seq<Block>, i: nat, said: seq<Digest>) {
    i <= |queue| && said + Backwards(queue[..i]) == Backwards(queue)
  }

  lemma NothingSaid(queue: seq<Block>)
    ensures Said(queue, |queue|, []) && Elements([]) == {}
  {
    hide Hash; hide Backwards;
    assert queue[..|queue|] == queue;
    assert [] + Backwards(queue) == Backwards(queue);
  }

  lemma Regroup(s: seq<Digest>, d: Digest, t: seq<Digest>)
    ensures s + ([d] + t) == (s + [d]) + t
  {
  }

  lemma SayNext(queue: seq<Block>, i: nat, said: seq<Digest>)
    requires Said(queue, i + 1, said)
    ensures Said(queue, i, said + [Hash(queue[i])])
  {
    hide Hash; hide Backwards;
    assert queue[..i + 1] == queue[..i] + [queue[i]];
    BackwardsPush(queue[..i], queue[i]);
    Regroup(said, Hash(queue[i]), Backwards(queue[..i]));
  }

  lemma AllSaid(queue: seq<Block>, said: seq<Digest>)
    requires Said(queue, 0, said)
    ensures said == Backwards(queue)
  {
    assert queue[..0] == [];
  }

  /** Blocks are stored under their hashes, and a stored parent comes earlier. */
  ghost predicate Sound(store: Store) {
    forall d :: d in store ==>
      && Hash(store[d]) == d
      && (store[d].qc.Some? && store[d].qc.value.hash in store ==>
            LayerOf(store[store[d].qc.value.hash]) < LayerOf(store[d]))
  }

  /** The store after the last arrival. */
  ghost function Last(stores: seq<Store>): Store
    requires stores != []
  {
    Now(stores, |stores|)
  }

  lemma LastGrows(stores: seq<Store>, k: nat)
    requires stores != [] && Growing(stores)
    ensures StoreGrows(Now(stores, k), Last(stores)) && (k >= |stores| - 1 ==> Now(stores, k) == Last(stores))
  {
    NowGrows(stores, if k < |stores| then k else |stores|, |stores|);
  }

  /** What a drain logs before the block itself. */
  ghost function BelowFresh(store: Store, done: set<Digest>, b: Block): seq<Digest>
    requires Rooted(store, done, b)
  {
    if Hash(b) in done || b.qc.None? then [] else Fresh(store, done, Parent(store, b))
  }

  /** The walk from `block` has reached `current`. */
  ghost predicate Walking(store: Store, done: set<Digest>, block: Block, current: Block, queue: seq<Block>) {
    && Stored(store, current) && Hash(current) !in done
    && (Rooted(store, done, block) <==> Rooted(store, done, current))
    && (Rooted(store, done, block) ==>
          Fresh(store, done, block) == BelowFresh(store, done, current) + Backwards(queue))
  }

  lemma WalkStarts(store: Store, done: set<Digest>, block: Block)
    requires Stored(store, block) && Hash(block) !in done
    ensures Walking(store, done, block, block, [block])
  {
    hide Hash;
    assert [block][..0] == [];
    assert Backwards([block]) == [Hash(block)];
  }

  lemma WalkGoesOn(store: Store, done: set<Digest>, block: Block, current: Block, queue: seq<Block>)
    requires Sound(store) && Walking(store, done, block, current, queue)
    requires current.qc.Some? && current.qc.value.hash in store && current.qc.value.hash !in done
    ensures Walking(store, done, block, Parent(store, current), queue + [Parent(store, current)])
    ensures LayerOf(Parent(store, current)) < LayerOf(current) && Hash(Parent(store, current)) == current.qc.value.hash
  {
    hide Hash; hide Backwards;
    var b := Parent(store, current);
    assert Hash(b) == current.qc.value.hash;
    assert Hash(current) in store;
    BackwardsPush(queue, b);
    if Rooted(store, done, block) {
      assert BelowFresh(store, done, current) == BelowFresh(store, done, b) + [Hash(b)];
      Regroup(BelowFresh(store, done, b), Hash(b), Backwards(queue));
    }
  }

  lemma WalkEnds(store: Store, done: set<Digest>, block: Block, current: Block, queue: seq<Block>)
    requires Sound(store) && Walking(store, done, block, current, queue)
    requires current.qc.None? || (current.qc.value.hash in store && current.qc.value.hash in done)
    ensures Rooted(store, done, block) && Backwards(queue) == Fresh(store, done, block)
  {
    hide Hash; hide Backwards;
    assert Hash(current) in store;
    if current.qc.Some? {
      assert Hash(Parent(store, current)) == current.qc.value.hash;
    }
    assert BelowFresh(store, done, current) == [];
  }

  lemma WalkWaits(store: Store, done: set<Digest>, block: Block, current: Block, queue: seq<Block>)
    requires Walking(store, done, block, current, queue) && current.qc.Some? && current.qc.value.hash !in store
    ensures !Rooted(store, done, block)
  {
  }

  /** The channel has been drained up to `count`, and the walk from the next block waits for a parent. */
  ghost predicate Waits(store: Store, done: set<Digest>, blocks: seq<Block>, count: nat) {
    count < |blocks| && !Rooted(store, done, blocks[count])
  }

  /** Commitor: the loop behind the channel. */
  class Committer {
    var committed: set<Digest>
    var log: seq<Digest>     // what was announced on the commit channel

    ghost predicate Valid(store: Store)
      reads this
    {
      Logged(log, committed) && ParentFirst(store, log) && ParentComplete(store, committed)
    }

    constructor ()
      ensures committed == {} && log == [] && forall store :: Valid(store)
    {
      committed, log := {}, [];
    }

    /** The walk over the parents, up to the first committed one. A parent that is not in the store yet is
        looked up again; the walk ends if and only if every parent it asks for arrives. */
    method Walk(stores: seq<Store>, now: nat, block: Block) returns (ended: bool, queue: seq<Block>, later: nat)
      requires stores != [] && Growing(stores) && Sound(Last(stores))
      requires Stored(Last(stores), block) && Hash(block) !in committed
      ensures ended <==> Rooted(Last(stores), committed, block)
      ensures ended ==> Backwards(queue) == Fresh(Last(stores), committed, block)
      ensures now <= later && (!ended ==> later >= |stores|)
    {
      hide *;
      ghost var last := Last(stores);
      queue, later := [block], now;
      var current := block;
      WalkStarts(last, committed, block);
      while current.qc.Some?
        invariant Walking(last, committed, block, current, queue) && now <= later
        decreases LayerOf(current), |stores| - later
      {
        var store := Now(stores, later);
        LastGrows(stores, later);
        later := later + 1;
        var d := current.qc.value.hash;
        if d in store {
          InLater(store, last, d);
          var b := store[d];
          SoundKey(last, d);
          if Hash(b) in committed {
            break;
          }
          WalkGoesOn(last, committed, block, current, queue);
          ParentIs(last, current);
          queue := queue + [b];
          current := b;
        } else if later >= |stores| {
          WalkWaits(last, committed, block, current, queue);
          return false, queue, later;
        }
      }
      WalkEnds(last, committed, block, current, queue);
      ended := true;
    }

    /** One block is drained: its uncommitted ancestors are logged, oldest first. While a parent is missing
        nothing is committed. */
    method Drain(stores: seq<Store>, now: nat, block: Block) returns (ended: bool, later: nat)
      requires stores != [] && Growing(stores) && Sound(Last(stores)) && Stored(Last(stores), block)
      modifies this`committed, this`log
      ensures ended <==> Rooted(Last(stores), old(committed), block)
      ensures ended ==> log == old(log) + Fresh(Last(stores), old(committed), block)
      ensures ended ==> committed == old(committed) + Elements(Fresh(Last(stores), old(committed), block))
      ensures !ended ==> committed == old(committed) && log == old(log)
      ensures now <= later
    {
      hide *;
      ended, later := true, now;
      if Hash(block) !in committed {
        var queue;
        ended, queue, later := Walk(stores, now, block);
        if ended {
          CommitBackwards(queue);
        }
      } else {
        AlreadyCommitted(Last(stores), committed, block);
      }
    }

    /** The loop that commits the queue from its end. */
    method CommitBackwards(queue: seq<Block>)
      modifies this`committed, this`log
      ensures log == old(log) + Backwards(queue) && committed == old(committed) + Elements(Backwards(queue))
    {
      hide *;
      var i := |queue|;
      ghost var said: seq<Digest> := [];
      NothingSaid(queue);
      while i > 0
        invariant 0 <= i <= |queue| && Said(queue, i, said)
        invariant log == old(log) + said && committed == old(committed) + Elements(said)
      {
        i := i - 1;
        var b := queue[i];
        SayNext(queue, i, said);
        Append(said, Hash(b));
        committed := committed + {Hash(b)};
        log := log + [Hash(b)];
        said := said + [Hash(b)];
      }
      AllSaid(queue, said);
    }

    /** The loop over the channel: it drains the blocks in order, until one waits for a parent that never
        arrives. */
    method Run(stores: seq<Store>, blocks: seq<Block>) returns (count: nat)
      requires stores != [] && Growing(stores) && Sound(Last(stores)) && Valid(Last(stores))
      requires forall b :: b in blocks ==> Stored(Last(stores), b)
      modifies this
      ensures Valid(Last(stores)) && old(log) <= log && count <= |blocks|
      ensures AllKept(Last(stores), blocks[..count])
      ensures committed == old(committed) + Ancestors(Last(stores), blocks[..count])
      ensures count < |blocks| ==> Waits(Last(stores), committed, blocks, count)
    {
      hide Hash; hide Logged; hide ParentFirst; hide ParentComplete; hide Rooted; hide Fresh; hide AllKept;
      hide Ancestors; hide StoreGrows; hide Stored; hide Sound; hide Waits; hide Growing; hide Last; hide Elements;
      ghost var last := Last(stores);
      count := 0;
      var later := 0;
      NoBlocks(last, blocks);
      while count < |blocks|
        invariant count <= |blocks| && Valid(last) && old(log) <= log && AllKept(last, blocks[..count])
        invariant committed == old(committed) + Ancestors(last, blocks[..count])
      {
        var b := blocks[count];
        assert b in blocks;
        ghost var before, logged := committed, log;
        var ended;
        ended, later := Drain(stores, later, b);
        if !ended {
          NextWaits(last, committed, blocks, count);
          return;
        }
        DrainNext(last, logged, before, old(committed), blocks, count);
        count := count + 1;
      }
    }
  }

  lemma InLater(s: Store, t: Store, d: Digest)
    requires StoreGrows(s, t) && d in s
    ensures d in t && t[d] == s[d]
  {
  }

  lemma SoundKey(store: Store, d: Digest)
    requires Sound(store) && d in store
    ensures Hash(store[d]) == d
  {
  }

  lemma ParentIs(store: Store, b: Block)
    requires b.qc.Some? && b.qc.value.hash in store
    ensures Parent(store, b) == store[b.qc.value.hash]
  {
  }

  lemma AlreadyCommitted(store: Store, done: set<Digest>, b: Block)
    requires Hash(b) in done
    ensures Rooted(store, done, b) && Fresh(store, done, b) == [] && done + Elements(Fresh(store, done, b)) == done
  {
  }

  lemma NextWaits(store: Store, done: set<Digest>, blocks: seq<Block>, count: nat)
    requires count < |blocks| && !Rooted(store, done, blocks[count])
    ensures Waits(store, done, blocks, count)
  {
  }

  lemma NoBlocks(store: Store, blocks: seq<Block>)
    ensures AllKept(store, blocks[..0]) && Ancestors(store, blocks[..0]) == {}
  {
  }

  lemma DrainNext(store: Store, log: seq<Digest>, mid: set<Digest>, done: set<Digest>, blocks: seq<Block>, count: nat)
    requires Logged(log, mid) && ParentFirst(store, log) && ParentComplete(store, mid)
    requires count < |blocks| && Stored(store, blocks[count]) && Rooted(store, mid, blocks[count])
    requires AllKept(store, blocks[..count]) && mid == done + Ancestors(store, blocks[..count])
    ensures var f := Fresh(store, mid, blocks[count]);
      && Logged(log + f, mid + Elements(f)) && ParentFirst(store, log + f) && ParentComplete(store, mid + Elements(f))
      && AllKept(store, blocks[..count + 1])
      && mid + Elements(f) == done + Ancestors(store, blocks[..count + 1])
  {
    hide Hash; hide Logged; hide ParentFirst; hide ParentComplete; hide Rooted; hide Fresh; hide StoreGrows;
    hide Stored;
    var b := blocks[count];
    LogFresh(store, log, mid, b);
    RootedIsLinked(store, mid, b);
    StoreGrowsSelf(store);
    OneDrain(store, store, mid, b);
    assert blocks[..count + 1][..count] == blocks[..count];
  }

  /** A channel whose blocks all have their ancestors stored in the end is drained completely. */
  lemma KeptNeverWaits(store: Store, done: set<Digest>, blocks: seq<Block>, count: nat)
    requires AllKept(store, blocks)
    ensures !Waits(store, done, blocks, count)
  {
    if count < |blocks| {
      RootedWider(store, {}, done, blocks[count]);
    }
  }
}
