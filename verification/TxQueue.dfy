/** The transaction ring buffer that feeds the proposals (txQueue). */
module TxQueue {

  newtype Byte = x: int | 0 <= x < 256

  type Transaction = seq<Byte>

  datatype Batch = Batch(id: int, txs: seq<Transaction>)

  /** maxQueueSize, batchSize, N and Id. */
  datatype Parameters = Parameters(capacity: nat, batchSize: nat, n: nat, id: nat)

  const NO_BATCH := Batch(-1, [])

  /** The buffer: `slots` is the circular array, `channel` the batches waiting to be taken. */
  datatype Queue = Queue(slots: seq<Transaction>, wind: nat, rind: int, nums: int, bcnt: nat, channel: seq<Batch>)

  // ----- Modular arithmetic -----

  lemma ModUnique(a: nat, q: nat, r: nat, m: nat)
    requires m >= 1 && a == q * m + r && r < m
    ensures a % m == r
  {
    var q', r' := a / m, a % m;
    assert a == q' * m + r';
    if q' < q {
      LessTimes(q', q, m);
    } else if q < q' {
      LessTimes(q, q', m);
    }
  }

  lemma {:induction false} LessTimes(x: nat, y: nat, m: nat)
    requires x < y
    ensures x * m + m <= y * m
  {
    assert y * m == (y - 1) * m + m;
    if x < y - 1 {
      LessTimes(x, y - 1, m);
    }
  }

  /** One step around the buffer. */
  lemma ModStep(a: nat, m: nat)
    requires m >= 1
    ensures (a % m + 1) % m == (a + 1) % m
  {
    var q, r := a / m, a % m;
    assert a == q * m + r;
    if r + 1 < m {
      ModUnique(a + 1, q, r + 1, m);
      ModUnique(r + 1, 0, r + 1, m);
    } else {
      assert (q + 1) * m == q * m + m;
      ModUnique(a + 1, q + 1, 0, m);
      assert 1 * m == m;
      ModUnique(r + 1, 1, 0, m);
    }
  }

  /** Less than one turn apart means different slots. */
  lemma ModDiffers(a: nat, b: nat, m: nat)
    requires m >= 1 && a < b < a + m
    ensures a % m != b % m
  {
    var q, r := a / m, a % m;
    assert a == q * m + r;
    if r + (b - a) < m {
      ModUnique(b, q, r + (b - a), m);
    } else {
      assert (q + 1) * m == q * m + m;
      ModUnique(b, q + 1, r + (b - a) - m, m);
    }
  }

  // ----- What each operation does -----

  function Init(p: Parameters): Queue {
    Queue(seq(p.capacity, _ => []), 0, -1, 0, 0, [])
  }

  /** The read index after `k` reads. */
  function ReadIndex(rind: int, k: nat, capacity: nat): (r: int)
    requires capacity >= 1 && -1 <= rind < capacity
    ensures -1 <= r < capacity && (k >= 1 ==> r >= 0)
  {
    if k == 0 then rind else (ReadIndex(rind, k - 1, capacity) + 1) % capacity
  }

  /** The transactions of `k` reads. */
  function Reads(slots: seq<Transaction>, rind: int, k: nat): (txs: seq<Transaction>)
    requires |slots| >= 1 && -1 <= rind < |slots|
    ensures |txs| == k
  {
    if k == 0 then [] else Reads(slots, rind, k - 1) + [slots[ReadIndex(rind, k, |slots|)]]
  }

  ghost predicate Shaped(p: Parameters, q: Queue) {
    p.capacity >= 1 && |q.slots| == p.capacity && q.wind < p.capacity && -1 <= q.rind < p.capacity
  }

  /** make */
  function Make(p: Parameters, q: Queue): (q': Queue)
    requires |q.slots| == p.capacity >= 1 && -1 <= q.rind < p.capacity
  {
    q.(rind := ReadIndex(q.rind, p.batchSize, p.capacity),
       nums := q.nums - p.batchSize,
       bcnt := q.bcnt + 1,
       channel := q.channel + [Batch(p.id + p.n * q.bcnt, Reads(q.slots, q.rind, p.batchSize))])
  }

  /** One transaction taken by run. */
  function Arrive(p: Parameters, q: Queue, tx: Transaction): (q': Queue)
    requires |q.slots| == p.capacity >= 1 && q.wind < p.capacity && -1 <= q.rind < p.capacity
  {
    if q.wind == q.rind then q
    else
      var w := q.(slots := q.slots[q.wind := tx], wind := (q.wind + 1) % p.capacity, nums := q.nums + 1);
      if w.nums >= p.batchSize then Make(p, w) else w
  }

  /** get */
  function Take(q: Queue): (Queue, Batch) {
    if |q.channel| > 0 then (q.(channel := q.channel[1..]), q.channel[0]) else (q, NO_BATCH)
  }

  // ----- The window of pending transactions -----

  /** The transactions written and not yet batched, in reading order. */
  ghost function Pending(q: Queue): seq<Transaction>
    requires |q.slots| >= 1 && q.rind >= -1 && q.nums >= 0
  {
    seq(q.nums, i requires 0 <= i => q.slots[(q.rind + 1 + i) % |q.slots|])
  }

  /** The write index is one turn of the pending window ahead of the read index. */
  ghost predicate Valid(p: Parameters, q: Queue) {
    && Shaped(p, q)
    && 0 <= q.nums < p.batchSize < p.capacity
    && q.wind == (q.rind + 1 + q.nums) % p.capacity
  }

  lemma {:induction false} ReadIndexIs(rind: int, k: nat, capacity: nat)
    requires capacity >= 1 && -1 <= rind < capacity && k >= 1
    ensures ReadIndex(rind, k, capacity) == (rind + k) % capacity
  {
    if k >= 2 {
      ReadIndexIs(rind, k - 1, capacity);
      ModStep(rind + k - 1, capacity);
    }
  }

  lemma {:induction false} ReadsAre(slots: seq<Transaction>, rind: int, k: nat, i: nat)
    requires |slots| >= 1 && -1 <= rind < |slots| && i < k
    ensures Reads(slots, rind, k)[i] == slots[(rind + 1 + i) % |slots|]
  {
    if i == k - 1 {
      ReadIndexIs(rind, k, |slots|);
    } else {
      ReadsAre(slots, rind, k - 1, i);
    }
  }

  /** The buffer is never full. */
  lemma NeverFull(p: Parameters, q: Queue)
    requires Valid(p, q)
    ensures q.wind != q.rind
  {
    if q.rind >= 0 {
      ModDiffers(q.rind, q.rind + 1 + q.nums, p.capacity);
      ModUnique(q.rind, 0, q.rind, p.capacity);
    }
  }

  /** The state after a write and before the batch is made. */
  function Written(p: Parameters, q: Queue, tx: Transaction): Queue
    requires |q.slots| == p.capacity >= 1 && q.wind < p.capacity
  {
    q.(slots := q.slots[q.wind := tx], wind := (q.wind + 1) % p.capacity, nums := q.nums + 1)
  }

  lemma WriteExtends(p: Parameters, q: Queue, tx: Transaction)
    requires Valid(p, q)
    ensures Pending(Written(p, q, tx)) == Pending(q) + [tx]
    ensures Written(p, q, tx).wind == (q.rind + 1 + (q.nums + 1)) % p.capacity
  {
    var w := Written(p, q, tx);
    ModStep(q.rind + 1 + q.nums, p.capacity);
    forall i | 0 <= i < q.nums + 1 ensures Pending(w)[i] == (Pending(q) + [tx])[i] {
      if i < q.nums {
        ModDiffers(q.rind + 1 + i, q.rind + 1 + q.nums, p.capacity);
      }
    }
  }

  lemma MakeEmpties(p: Parameters, w: Queue)
    requires Shaped(p, w) && w.nums == p.batchSize >= 1 && w.wind == (w.rind + 1 + w.nums) % p.capacity
    ensures Reads(w.slots, w.rind, p.batchSize) == Pending(w)
    ensures Make(p, w).wind == (Make(p, w).rind + 1) % p.capacity
  {
    forall i: nat | i < w.nums ensures Reads(w.slots, w.rind, p.batchSize)[i] == Pending(w)[i] {
      ReadsAre(w.slots, w.rind, p.batchSize, i);
    }
    ReadIndexIs(w.rind, p.batchSize, p.capacity);
    ModStep(w.rind + p.batchSize, p.capacity);
  }

  /** What an arrival does to the channel and to the pending window. */
  lemma ArriveKeeps(p: Parameters, q: Queue, tx: Transaction, q': Queue)
    requires Valid(p, q) && q' == Arrive(p, q, tx)
    ensures Valid(p, q')
    ensures var all := Pending(q) + [tx];
      && (|all| < p.batchSize ==> Pending(q') == all && q'.channel == q.channel && q'.bcnt == q.bcnt)
      && (|all| >= p.batchSize ==> Pending(q') == [] && q'.bcnt == q.bcnt + 1 && |all| == p.batchSize)
      && (|all| >= p.batchSize ==> q'.channel == q.channel + [Batch(p.id + p.n * q.bcnt, all)])
  {
    NeverFull(p, q);
    WriteExtends(p, q, tx);
    var w := Written(p, q, tx);
    if w.nums >= p.batchSize {
      MakeEmpties(p, w);
    }
  }

  // ----- Every sequence of operations -----

  datatype Op = Arrival(tx: Transaction) | Taking

  /** The buffer and the batches handed out. */
  datatype Run = Run(q: Queue, out: seq<Batch>)

  ghost function Exec(p: Parameters, ops: seq<Op>): (r: Run)
    requires p.capacity >= 1
    ensures Shaped(p, r.q)
  {
    if ops == [] then Run(Init(p), [])
    else
      var r := Exec(p, ops[..|ops| - 1]);
      match ops[|ops| - 1]
      case Arrival(tx) => Run(Arrive(p, r.q, tx), r.out)
      case Taking => Run(Take(r.q).0, if Take(r.q).1.id == -1 then r.out else r.out + [Take(r.q).1])
  }

  ghost function Arrivals(ops: seq<Op>): seq<Transaction> {
    if ops == [] then []
    else Arrivals(ops[..|ops| - 1]) + (if ops[|ops| - 1].Arrival? then [ops[|ops| - 1].tx] else [])
  }

  ghost function Flat(bs: seq<Batch>): seq<Transaction> {
    if bs == [] then [] else Flat(bs[..|bs| - 1]) + bs[|bs| - 1].txs
  }

  lemma FlatAppend(bs: seq<Batch>, b: Batch)
    ensures Flat(bs + [b]) == Flat(bs) + b.txs
  {
    assert (bs + [b])[..|bs + [b]| - 1] == bs;
  }

  /** The k-th batch is numbered `id + n*k` and is full. */
  ghost predicate Numbered(p: Parameters, bs: seq<Batch>) {
    forall k :: 0 <= k < |bs| ==> bs[k].id == p.id + p.n * k && |bs[k].txs| == p.batchSize
  }

  /** Nothing is lost, duplicated or reordered between arrivals, batches and pending window. */
  ghost predicate Accounts(p: Parameters, r: Run, arrived: seq<Transaction>) {
    && |r.q.slots| >= 1 && r.q.rind >= -1 && r.q.nums >= 0
    && Flat(r.out + r.q.channel) + Pending(r.q) == arrived
    && Numbered(p, r.out + r.q.channel)
    && r.q.bcnt == |r.out + r.q.channel|
  }

  ghost predicate Fifo(p: Parameters, ops: seq<Op>)
    requires p.capacity >= 1
  {
    Accounts(p, Exec(p, ops), Arrivals(ops))
  }

  lemma ArriveAccounts(p: Parameters, r: Run, arrived: seq<Transaction>, tx: Transaction, q': Queue)
    requires Valid(p, r.q) && Accounts(p, r, arrived) && q' == Arrive(p, r.q, tx)
    ensures Valid(p, q') && Accounts(p, Run(q', r.out), arrived + [tx])
  {
    ArriveKeeps(p, r.q, tx, q');
    var bs, all := r.out + r.q.channel, Pending(r.q) + [tx];
    hide Arrive; hide Pending;
    assert Flat(bs) + all == arrived + [tx];
    if |all| >= p.batchSize {
      var b := Batch(p.id + p.n * r.q.bcnt, all);
      FlatAppend(bs, b);
      hide Flat;
      assert r.out + q'.channel == bs + [b];
      assert Numbered(p, bs + [b]);
    }
  }

  lemma TakeAccounts(p: Parameters, r: Run, arrived: seq<Transaction>, r': Run)
    requires Valid(p, r.q) && Accounts(p, r, arrived)
    requires r' == Run(Take(r.q).0, if Take(r.q).1.id == -1 then r.out else r.out + [Take(r.q).1])
    ensures Valid(p, r'.q) && Accounts(p, r', arrived)
  {
    if |r.q.channel| > 0 {
      assert (r.out + r.q.channel)[|r.out|] == r.q.channel[0];
      IdIsPositive(p, |r.out|);
      assert r'.out + r'.q.channel == r.out + r.q.channel;
    }
    assert Pending(r'.q) == Pending(r.q);
  }

  lemma IdIsPositive(p: Parameters, k: nat)
    ensures p.id + p.n * k >= 0
  {
  }

  lemma {:induction false} FifoHolds(p: Parameters, ops: seq<Op>)
    requires 1 <= p.batchSize < p.capacity
    ensures Valid(p, Exec(p, ops).q) && Fifo(p, ops)
  {
    if ops == [] {
      ModUnique(0, 0, 0, p.capacity);
    } else {
      var init := ops[..|ops| - 1];
      FifoHolds(p, init);
      hide Valid; hide Accounts;
      match ops[|ops| - 1]
      case Arrival(tx) => ArriveAccounts(p, Exec(p, init), Arrivals(init), tx, Exec(p, ops).q);
      case Taking =>
        TakeAccounts(p, Exec(p, init), Arrivals(init), Exec(p, ops));
        assert Arrivals(init) + [] == Arrivals(init);
    }
  }

  // ----- Sizes for which it fails -----

  /** A stream of arrivals only. */
  ghost function Stream(txs: seq<Transaction>): (ops: seq<Op>)
    ensures |ops| == |txs|
  {
    if txs == [] then [] else Stream(txs[..|txs| - 1]) + [Arrival(txs[|txs| - 1])]
  }

  lemma {:induction false} StreamArrives(txs: seq<Transaction>)
    ensures Arrivals(Stream(txs)) == txs
  {
    if txs != [] {
      var init := txs[..|txs| - 1];
      StreamArrives(init);
      assert Stream(txs)[..|Stream(txs)| - 1] == Stream(init);
    }
  }

  lemma ExecStream(p: Parameters, txs: seq<Transaction>, tx: Transaction)
    requires p.capacity >= 1
    ensures Exec(p, Stream(txs + [tx])) == Run(Arrive(p, Exec(p, Stream(txs)).q, tx), Exec(p, Stream(txs)).out)
  {
    var txs' := txs + [tx];
    assert txs'[..|txs'| - 1] == txs;
    assert Stream(txs')[..|Stream(txs')| - 1] == Stream(txs);
  }

  /** `k` copies of the empty transaction. */
  ghost function Blank(k: nat): (txs: seq<Transaction>)
    ensures |txs| == k && forall i :: 0 <= i < k ==> txs[i] == []
  {
    if k == 0 then [] else Blank(k - 1) + [[]]
  }

  /** Until a batch is read, the read index stays before the first slot and writes go around. */
  ghost predicate Early(p: Parameters, k: nat, r: Run) {
    && Shaped(p, r.q) && r.q.rind == -1 && r.q.nums == k && r.q.wind == k % p.capacity && r.out == []
    && Flat(r.q.channel) == [] && (p.batchSize > 0 ==> r.q.channel == [])
  }

  lemma EarlyStep(p: Parameters, k: nat, r: Run, r': Run)
    requires Early(p, k, r) && (p.batchSize == 0 || k + 1 < p.batchSize) && r' == Run(Arrive(p, r.q, []), r.out)
    ensures Early(p, k + 1, r')
  {
    ModStep(k, p.capacity);
    FlatAppend(r.q.channel, Batch(p.id + p.n * r.q.bcnt, []));
  }

  lemma {:induction false} FirstWrites(p: Parameters, k: nat)
    requires p.capacity >= 1 && (p.batchSize == 0 || k < p.batchSize)
    ensures Early(p, k, Exec(p, Stream(Blank(k))))
  {
    if k == 0 {
      ModUnique(0, 0, 0, p.capacity);
    } else {
      FirstWrites(p, k - 1);
      ExecStream(p, Blank(k - 1), []);
      EarlyStep(p, k - 1, Exec(p, Stream(Blank(k - 1))), Exec(p, Stream(Blank(k))));
    }
  }

  /** A batch larger than the buffer, or of size zero: the write after the last slot overwrites the
      first transaction before it is read. */
  lemma OverwritesFirst(p: Parameters, mark: Transaction)
    requires p.capacity >= 1 && (p.batchSize == 0 || p.batchSize > p.capacity) && mark != []
    ensures !Fifo(p, Stream(Blank(p.capacity) + [mark]))
  {
    var c := p.capacity;
    var txs := Blank(c) + [mark];
    FirstWrites(p, c);
    ExecStream(p, Blank(c), mark);
    StreamArrives(txs);
    assert 1 * c == c;
    ModUnique(c, 1, 0, c);
    ModUnique(0, 0, 0, c);
    var r, r' := Exec(p, Stream(Blank(c))), Exec(p, Stream(txs));
    hide Exec; hide Stream;
    assert txs[0] == [];
    if r'.q.nums >= 0 {
      FirstIsMark(p, r, r', mark);
    }
  }

  lemma FirstIsMark(p: Parameters, r: Run, r': Run, mark: Transaction)
    requires Early(p, p.capacity, r) && r.q.wind == 0 && (p.batchSize == 0 || p.batchSize > p.capacity)
    requires r' == Run(Arrive(p, r.q, mark), r.out) && r'.q.nums >= 0 && 0 % p.capacity == 0
    ensures var all := Flat(r'.out + r'.q.channel) + Pending(r'.q); |all| >= 1 && all[0] == mark
  {
    var w := Written(p, r.q, mark);
    assert r'.out + r'.q.channel == r'.q.channel;
    hide ReadIndex;
    if w.nums >= p.batchSize {
      var b := Batch(p.id + p.n * w.bcnt, Reads(w.slots, w.rind, p.batchSize));
      FlatAppend(r.q.channel, b);
      if p.batchSize > 0 {
        ReadsAre(w.slots, w.rind, p.batchSize, 0);
      }
    }
  }

  /** A batch as large as the buffer: after the first batch the read index stops on the last slot. */
  ghost predicate Late(p: Parameters, k: nat, r: Run) {
    && Shaped(p, r.q) && r.q.rind == p.capacity - 1 && r.q.nums == k && r.q.wind == k && r.out == []
    && |Flat(r.q.channel)| == p.capacity
  }

  lemma FillsFirst(p: Parameters, r: Run, r': Run)
    requires p.batchSize == p.capacity >= 1 && Early(p, p.capacity - 1, r) && r' == Run(Arrive(p, r.q, []), r.out)
    ensures Late(p, 0, r')
  {
    var c := p.capacity;
    ModUnique(c - 1, 0, c - 1, c);
    assert 1 * c == c;
    ModUnique(c, 1, 0, c);
    ReadIndexIs(-1, c, c);
    var w := Written(p, r.q, []);
    FlatAppend(r.q.channel, Batch(p.id + p.n * w.bcnt, Reads(w.slots, w.rind, c)));
  }

  lemma FirstBatch(p: Parameters)
    requires p.batchSize == p.capacity >= 1
    ensures Late(p, 0, Exec(p, Stream(Blank(p.capacity))))
  {
    hide *;
    var c: nat := p.capacity - 1;
    FirstWrites(p, c);
    BlankStep(c);
    ExecStream(p, Blank(c), []);
    FillsFirst(p, Exec(p, Stream(Blank(c))), Exec(p, Stream(Blank(c + 1))));
  }

  lemma LateStep(p: Parameters, k: nat, r: Run, r': Run)
    requires Late(p, k, r) && k + 1 < p.batchSize == p.capacity && r' == Run(Arrive(p, r.q, []), r.out)
    ensures Late(p, k + 1, r')
  {
    ModUnique(k + 1, 0, k + 1, p.capacity);
  }

  lemma BlankStep(k: nat)
    ensures Blank(k + 1) == Blank(k) + [[]]
  {
  }

  lemma {:induction false} LateWrites(p: Parameters, k: nat)
    requires p.batchSize == p.capacity >= 1 && k < p.capacity
    ensures Late(p, k, Exec(p, Stream(Blank(p.capacity + k))))
  {
    hide *;
    if k == 0 {
      FirstBatch(p);
    } else {
      LateWrites(p, k - 1);
      var m: nat := p.capacity + (k - 1);
      BlankStep(m);
      ExecStream(p, Blank(m), []);
      LateStep(p, k - 1, Exec(p, Stream(Blank(m))), Exec(p, Stream(Blank(m + 1))));
    }
  }

  lemma StaysFull(p: Parameters, r: Run, r': Run, txs: seq<Transaction>)
    requires p.batchSize == p.capacity >= 1 && Late(p, p.capacity - 1, r) && r' == Run(Arrive(p, r.q, []), r.out)
    requires |txs| == 2 * p.capacity
    ensures !Accounts(p, r', txs)
  {
    assert r' == r;
    assert r.out + r.q.channel == r.q.channel;
  }

  lemma DropsLast(p: Parameters)
    requires p.batchSize == p.capacity >= 1
    ensures !Fifo(p, Stream(Blank(2 * p.capacity)))
  {
    hide Late; hide Accounts; hide Exec; hide Stream; hide Blank; hide Arrivals; hide Arrive;
    var m: nat := p.capacity + (p.capacity - 1);
    LateWrites(p, p.capacity - 1);
    BlankStep(m);
    ExecStream(p, Blank(m), []);
    StreamArrives(Blank(m + 1));
    StaysFull(p, Exec(p, Stream(Blank(m))), Exec(p, Stream(Blank(m + 1))), Blank(m + 1));
  }

  /** The ring buffer is a FIFO for every sequence of arrivals and takes if and only if the batch size
      is positive and smaller than the buffer. */
  lemma FifoIff(p: Parameters)
    requires p.capacity >= 1
    ensures (forall ops :: Fifo(p, ops)) <==> 1 <= p.batchSize < p.capacity
  {
    hide Fifo;
    if 1 <= p.batchSize < p.capacity {
      forall ops ensures Fifo(p, ops) {
        FifoHolds(p, ops);
      }
    } else if p.batchSize == p.capacity {
      DropsLast(p);
    } else {
      OverwritesFirst(p, [1]);
    }
  }

  // ----- The object -----

  class TxQueue {
    const p: Parameters
    var queue: array<Transaction>
    var wind: nat
    var rind: int
    var nums: int
    var bcnt: nat
    var batchChannel: seq<Batch>

    /** The fields as one value. */
    ghost function View(): Queue
      reads this, queue
    {
      Queue(queue[..], wind, rind, nums, bcnt, batchChannel)
    }

    ghost predicate Ready()
      reads this
    {
      queue.Length == p.capacity >= 1 && wind < p.capacity && -1 <= rind < p.capacity
    }

    constructor (p: Parameters)
      requires p.capacity >= 1
      ensures this.p == p && Ready() && View() == Init(p) && fresh(queue)
    {
      this.p := p;
      queue := new Transaction[p.capacity](_ => []);
      wind, rind, nums, bcnt, batchChannel := 0, -1, 0, 0, [];
    }

    /** run, for the transactions received so far. */
    method Receive(txs: seq<Transaction>)
      requires Ready()
      modifies this, queue
      ensures Ready() && queue == old(queue) && View() == ArriveAll(p, old(View()), txs)
    {
      for i := 0 to |txs|
        invariant Ready() && queue == old(queue) && View() == ArriveAll(p, old(View()), txs[..i])
      {
        assert txs[..i + 1][..|txs[..i + 1]| - 1] == txs[..i];
        if wind == rind {
          continue;
        }
        ghost var before := View();
        queue[wind] := txs[i];
        wind := (wind + 1) % p.capacity;
        nums := nums + 1;
        assert View() == Written(p, before, txs[i]);
        if nums >= p.batchSize {
          MakeBatch();
        }
      }
      assert txs[..|txs|] == txs;
    }

    /** make */
    method MakeBatch()
      requires Ready()
      modifies this`rind, this`nums, this`bcnt, this`batchChannel
      ensures Ready() && View() == Make(p, old(View()))
    {
      var txs := [];
      for i := 0 to p.batchSize
        invariant Ready() && nums == old(nums) - i
        invariant rind == ReadIndex(old(rind), i, p.capacity) && txs == Reads(queue[..], old(rind), i)
        invariant bcnt == old(bcnt) && batchChannel == old(batchChannel)
      {
        rind := (rind + 1) % p.capacity;
        txs := txs + [queue[rind]];
        nums := nums - 1;
      }
      batchChannel := batchChannel + [Batch(p.id + p.n * bcnt, txs)];
      bcnt := bcnt + 1;
    }

    /** get */
    method GetBatch() returns (b: Batch)
      modifies this`batchChannel
      ensures (View(), b) == Take(old(View()))
    {
      if |batchChannel| > 0 {
        b := batchChannel[0];
        batchChannel := batchChannel[1..];
      } else {
        b := NO_BATCH;
      }
    }
  }

  /** Several arrivals in a row. */
  ghost function ArriveAll(p: Parameters, q: Queue, txs: seq<Transaction>): (q': Queue)
    requires |q.slots| == p.capacity >= 1 && q.wind < p.capacity && -1 <= q.rind < p.capacity
    ensures |q'.slots| == p.capacity >= 1 && q'.wind < p.capacity && -1 <= q'.rind < p.capacity
  {
    if txs == [] then q else Arrive(p, ArriveAll(p, q, txs[..|txs| - 1]), txs[|txs| - 1])
  }
}
