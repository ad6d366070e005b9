/** What the two commit loops share: the gate in front of their channel, and the log of what they commit. */
module CommitLog {
  import opened Blocks

  type Store = map<Digest, Block>

  // ----- A store that grows while the commit loop runs -----

  ghost predicate StoreGrows(s: Store, t: Store) {
    forall d :: d in s ==> d in t && t[d] == s[d]
  }

  /** The states of the store over time. */
  ghost predicate Growing(stores: seq<Store>) {
    forall i, j :: 0 <= i <= j < |stores| ==> StoreGrows(stores[i], stores[j])
  }

  /** The store at the k-th lookup; after the last state nothing is added any more. */
  function Now(stores: seq<Store>, k: nat): Store
    requires stores != []
  {
    if k < |stores| then stores[k] else stores[|stores| - 1]
  }

  lemma NowGrows(stores: seq<Store>, i: nat, j: nat)
    requires stores != [] && Growing(stores) && i <= j
    ensures StoreGrows(Now(stores, i), Now(stores, j))
  {
    hide StoreGrows;
    var n := |stores| - 1;
    assert StoreGrows(stores[if i < n then i else n], stores[if j < n then j else n]);
  }

  lemma StoreGrowsSelf(store: Store)
    ensures StoreGrows(store, store)
  {
  }

  lemma StoreGrowsOn(a: Store, b: Store, c: Store)
    requires StoreGrows(a, b) && StoreGrows(b, c)
    ensures StoreGrows(a, c)
  {
  }

  // ----- The gate -----

  /** The last position that was let through, and the channel to the commit loop. */
  datatype Gate = Gate(lastView: nat, lastHeight: Height, queue: seq<Block>)

  const NEW_GATE := Gate(0, H1, [])

  /** Commit */
  function Enqueue(g: Gate, b: Block): Gate {
    if LayerOf(b) < Layer(g.lastView, g.lastHeight) then g
    else Gate(b.view, b.height, g.queue + [b])
  }

  /** The channel holds blocks in increasing order of position. */
  ghost predicate Ordered(g: Gate) {
    && (forall i, j :: 0 <= i < j < |g.queue| ==> LayerOf(g.queue[i]) <= LayerOf(g.queue[j]))
    && (forall b :: b in g.queue ==> LayerOf(b) <= Layer(g.lastView, g.lastHeight))
  }

  lemma EnqueueKeepsOrder(g: Gate, b: Block)
    requires Ordered(g)
    ensures Ordered(Enqueue(g, b))
  {
    assert forall i :: 0 <= i < |g.queue| ==> g.queue[i] in g.queue;
  }

  /** The gate stands at the last block it let through. */
  ghost predicate GateAtLast(g: Gate) {
    if g.queue == [] then g.lastView == 0 && g.lastHeight.H1?
    else Layer(g.lastView, g.lastHeight) == LayerOf(g.queue[|g.queue| - 1])
  }

  lemma GateKeeps(g: Gate, b: Block)
    requires GateAtLast(g)
    ensures GateAtLast(Enqueue(g, b))
  {
  }

  class Gatekeeper {
    var lastView: nat
    var lastHeight: Height
    var blocksChan: seq<Block>

    ghost function Model(): Gate
      reads this
    {
      Gate(lastView, lastHeight, blocksChan)
    }

    constructor ()
      ensures Model() == NEW_GATE && Ordered(Model())
    {
      lastView, lastHeight, blocksChan := 0, H1, [];
    }

    /** Commit: positions entering the channel never decrease. */
    method Commit(b: Block)
      requires Ordered(Model())
      modifies this
      ensures Model() == Enqueue(old(Model()), b) && Ordered(Model())
    {
      EnqueueKeepsOrder(Model(), b);
      hide Ordered;
      if b.view < lastView || (b.view == lastView && b.height.H1? && lastHeight.H2?) {
        return;
      }
      lastView, lastHeight := b.view, b.height;
      blocksChan := blocksChan + [b];
    }
  }

  /** The log names every committed block exactly once. */
  ghost predicate Logged(log: seq<Digest>, done: set<Digest>) {
    && (forall i, j :: 0 <= i < j < |log| ==> log[i] != log[j])
    && (forall d :: d in log <==> d in done)
  }

  lemma LogAppends(log: seq<Digest>, done: set<Digest>, d: Digest)
    requires Logged(log, done) && d !in done
    ensures Logged(log + [d], done + {d})
  {
    assert forall i :: 0 <= i < |log| ==> log[i] in log;
  }
}
