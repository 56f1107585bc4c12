/** The lock-free MPMC ring (`ring_try_enqueue`, `ring_bulk_try_dequeue`) as a transition system.
    Every atomic load, store and compare-and-swap of a producer or a consumer is one step, and the
    steps of any number of threads interleave freely over sequentially consistent memory.  Ring
    positions are unbounded (no 2^64 wrap-around). */
module Ring {
  import opened Collections
  import opened Runs

  type TaskId = nat

  datatype Producer =
    | PIdle
    | PLoaded(task: TaskId, at: nat)    // ring_tail was read as `at`
    | PFree(task: TaskId, at: nat)      // the cell's sequence number was read as `at`
    | PClaimed(task: TaskId, at: nat)   // the CAS on ring_tail won position `at`
    | PStored(task: TaskId, at: nat)    // the cell's task field is written
    | PCounting(at: nat)                // the sequence number is published; ring_count is not yet bumped

  datatype Consumer =
    | CIdle
    | CScan(from: nat, max: nat, out: seq<TaskId>)    // about to read the sequence number at from + |out|
    | CFull(from: nat, max: nat, out: seq<TaskId>)    // it matched: about to read the task
    | CReady(from: nat, out: seq<TaskId>)             // about to CAS ring_head
    | CRelease(from: nat, out: seq<TaskId>, k: nat)   // the CAS won: about to release cell from + k
    | CCounting(from: nat, out: seq<TaskId>)          // about to subtract the batch from ring_count

  /** Which producer claimed a position, and for which task. */
  datatype Claim = Claim(task: TaskId, owner: nat)

  /** `log`, `takenBy` and `taken` record history: the claim of every position, the consumer that took
      it, and the tasks handed out in the order of the consumers' CASes. */
  datatype State = State(
    n: nat,
    head: nat,
    tail: nat,
    seqs: seq<nat>,
    slots: seq<TaskId>,
    count: int,
    prods: seq<Producer>,
    cons: seq<Consumer>,
    log: seq<Claim>,
    takenBy: seq<nat>,
    taken: seq<TaskId>)

  /** `pos & ring_mask` for a power-of-two ring: the remainder, by casting out revolutions. */
  function Cell(n: nat, pos: nat): (c: nat)
    requires n > 0
    ensures c < n
    decreases pos
  {
    if pos < n then pos else Cell(n, pos - n)
  }

  // ---------------------------------------------------------------- steps

  datatype Step =
    | Enqueue(i: nat, task: TaskId)   // a producer enters ring_try_enqueue and reads ring_tail
    | Produce(i: nat)                 // a producer takes its next atomic action
    | ClaimFails(i: nat)              // a producer's weak CAS fails (lost race or spurious) and reloads
    | Dequeue(j: nat, max: nat)       // a consumer enters ring_bulk_try_dequeue and reads ring_head
    | Consume(j: nat)                 // a consumer takes its next atomic action
    | TakeFails(j: nat)               // a consumer's weak CAS fails: it returns 0

  ghost predicate Enabled(s: State, a: Step)
  {
    && s.n > 0 && |s.seqs| == s.n && |s.slots| == s.n
    && match a
       case Enqueue(i, _) => i < |s.prods| && s.prods[i].PIdle?
       case Produce(i) => i < |s.prods| && !s.prods[i].PIdle? && (s.prods[i].PFree? ==> s.prods[i].at == s.tail)
       case ClaimFails(i) => i < |s.prods| && s.prods[i].PFree?
       case Dequeue(j, _) => j < |s.cons| && s.cons[j].CIdle?
       case Consume(j) => j < |s.cons| && !s.cons[j].CIdle? && (s.cons[j].CReady? ==> s.cons[j].from == s.head)
       case TakeFails(j) => j < |s.cons| && s.cons[j].CReady?
  }

  function SetProd(s: State, i: nat, p: Producer): State
    requires i < |s.prods|
  {
    s.(prods := s.prods[i := p])
  }

  function SetCons(s: State, j: nat, c: Consumer): State
    requires j < |s.cons|
  {
    s.(cons := s.cons[j := c])
  }

  /** The next action of a producer inside `ring_try_enqueue`. */
  function ProduceStep(s: State, i: nat): State
    requires s.n > 0 && |s.seqs| == s.n && |s.slots| == s.n
    requires i < |s.prods| && (s.prods[i].PFree? ==> s.prods[i].at == s.tail)
  {
    match s.prods[i]
    case PIdle => s
    case PLoaded(t, at) =>
      if s.seqs[Cell(s.n, at)] != at then SetProd(s, i, PIdle)      // refused: the caller spills
      else SetProd(s, i, PFree(t, at))
    case PFree(t, at) =>
      SetProd(s, i, PClaimed(t, at)).(tail := at + 1, log := s.log + [Claim(t, i)])
    case PClaimed(t, at) =>
      SetProd(s, i, PStored(t, at)).(slots := s.slots[Cell(s.n, at) := t])
    case PStored(t, at) =>
      SetProd(s, i, PCounting(at)).(seqs := s.seqs[Cell(s.n, at) := at + 1])
    case PCounting(at) =>
      SetProd(s, i, PIdle).(count := s.count + 1)
  }

  /** The next action of a consumer inside `ring_bulk_try_dequeue`. */
  function ConsumeStep(s: State, j: nat): State
    requires s.n > 0 && |s.seqs| == s.n && |s.slots| == s.n
    requires j < |s.cons| && (s.cons[j].CReady? ==> s.cons[j].from == s.head)
  {
    match s.cons[j]
    case CIdle => s
    case CScan(from, max, out) =>
      var at := from + |out|;
      if |out| < max && s.seqs[Cell(s.n, at)] == at + 1 then SetCons(s, j, CFull(from, max, out))
      else if out == [] then SetCons(s, j, CIdle)
      else SetCons(s, j, CReady(from, out))
    case CFull(from, max, out) =>
      SetCons(s, j, CScan(from, max, out + [s.slots[Cell(s.n, from + |out|)]]))
    case CReady(from, out) =>
      SetCons(s, j, CRelease(from, out, 0)).(
        head := from + |out|,
        takenBy := s.takenBy + seq(|out|, _ => j),
        taken := s.taken + out)
    case CRelease(from, out, k) =>
      if k < |out| then
        SetCons(s, j, CRelease(from, out, k + 1)).(seqs := s.seqs[Cell(s.n, from + k) := from + k + s.n])
      else
        SetCons(s, j, CCounting(from, out))
    case CCounting(from, out) =>
      SetCons(s, j, CIdle).(count := s.count - |out|)
  }

  function Do(s: State, a: Step): State
    requires Enabled(s, a)
  {
    match a
    case Enqueue(i, t) => SetProd(s, i, PLoaded(t, s.tail))
    case Produce(i) => ProduceStep(s, i)
    case ClaimFails(i) => SetProd(s, i, PLoaded(s.prods[i].task, s.tail))
    case Dequeue(j, max) => SetCons(s, j, CScan(s.head, max, []))
    case Consume(j) => ConsumeStep(s, j)
    case TakeFails(j) => SetCons(s, j, CIdle)
  }

  /** `pool_init`: a ring of at least two cells (what `next_pow2_u64` guarantees). */
  ghost predicate Init(s: State)
  {
    s.n >= 2 && Fresh(s)
  }

  /** Empty ring of any size whose cell i carries sequence number i; all threads outside the ring. */
  ghost predicate Fresh(s: State)
  {
    && s.n >= 1
    && s.head == 0 && s.tail == 0 && s.count == 0
    && |s.seqs| == s.n && |s.slots| == s.n
    && (forall c :: 0 <= c < s.n ==> s.seqs[c] == c)
    && (forall i :: 0 <= i < |s.prods| ==> s.prods[i].PIdle?)
    && (forall j :: 0 <= j < |s.cons| ==> s.cons[j].CIdle?)
    && s.log == [] && s.takenBy == [] && s.taken == []
  }

  ghost predicate Next(s: State, s': State)
  {
    exists a :: Enabled(s, a) && s' == Do(s, a)
  }

  // ---------------------------------------------------------------- invariant

  /** Position q is claimed and not yet published, by the producer that claimed it. */
  predicate Pending(s: State, q: nat)
    requires q < |s.log|
  {
    var i := s.log[q].owner;
    i < |s.prods| && (s.prods[i].PClaimed? || s.prods[i].PStored?) && s.prods[i].at == q
  }

  /** Position q is taken and its cell not yet released, by the consumer that took it. */
  predicate Releasing(s: State, q: nat)
    requires q < |s.takenBy|
  {
    var j := s.takenBy[q];
    j < |s.cons| && s.cons[j].CRelease? && s.cons[j].from + s.cons[j].k <= q < s.cons[j].from + |s.cons[j].out|
  }

  ghost predicate Shape(s: State)
  {
    && s.n >= 2 && |s.seqs| == s.n && |s.slots| == s.n
    && |s.log| == s.tail && |s.takenBy| == s.head && |s.taken| == s.head
    && s.head <= s.tail <= s.head + s.n
  }

  /** The cell that position p will use next, for p in the window [tail, tail + n): it is free for p,
      or still belongs to its previous occupant p - n. */
  ghost predicate CellOk(s: State, p: nat)
    requires Shape(s)
    requires s.tail <= p < s.tail + s.n
  {
    var v := s.seqs[Cell(s.n, p)];
    if p < s.n then v == p
    else
      var q := p - s.n;
      if q >= s.head then
        || (v == q && Pending(s, q))
        || (v == q + 1 && !Pending(s, q) && s.slots[Cell(s.n, q)] == s.log[q].task)
      else
        || v == p
        || (v == q + 1 && Releasing(s, q))
  }

  ghost predicate ProducerOk(s: State, i: nat)
    requires Shape(s) && i < |s.prods|
  {
    match s.prods[i]
    case PIdle => true
    case PLoaded(_, at) => at <= s.tail
    case PFree(_, at) => at <= s.tail && (at == s.tail ==> s.seqs[Cell(s.n, at)] == at)
    case PClaimed(t, at) =>
      && s.head <= at < s.tail && s.log[at] == Claim(t, i)
      && s.seqs[Cell(s.n, at)] == at
    case PStored(t, at) =>
      && s.head <= at < s.tail && s.log[at] == Claim(t, i)
      && s.seqs[Cell(s.n, at)] == at
      && s.slots[Cell(s.n, at)] == t
    case PCounting(at) => at < s.tail && s.log[at].owner == i
  }

  /** Position q carries the sequence number of a published task. */
  predicate Full(n: nat, seqs: seq<nat>, q: nat)
    requires |seqs| == n > 0
  {
    seqs[Cell(n, q)] == q + 1
  }

  /** Position q was published and its cell has not been given to position q + n yet. */
  predicate Unreleased(n: nat, seqs: seq<nat>, tail: nat, q: nat)
    requires |seqs| == n > 0
  {
    q + n >= tail && Full(n, seqs, q)
  }

  /** The first |out| positions from `from` are published and hold exactly the tasks in `out`. */
  ghost predicate Scanned(s: State, from: nat, out: seq<TaskId>)
    requires Shape(s)
  {
    && from + |out| <= s.tail
    && forall q :: from <= q < from + |out| ==> Full(s.n, s.seqs, q) && out[q - from] == s.log[q].task
  }

  /** `out` is the run of claims starting at `from`, taken by consumer j. */
  ghost predicate Holds(s: State, j: nat, from: nat, out: seq<TaskId>)
    requires Shape(s)
  {
    && from + |out| <= s.head
    && forall q :: from <= q < from + |out| ==>
         out[q - from] == s.log[q].task && s.takenBy[q] == j
  }

  ghost predicate ConsumerOk(s: State, j: nat)
    requires Shape(s) && j < |s.cons|
  {
    match s.cons[j]
    case CIdle => true
    case CScan(from, max, out) => from <= s.head && |out| <= max && (from == s.head ==> Scanned(s, from, out))
    case CFull(from, max, out) =>
      && from <= s.head && |out| < max
      && (from == s.head ==> Scanned(s, from, out) && from + |out| < s.tail && Full(s.n, s.seqs, from + |out|))
    case CReady(from, out) => from <= s.head && out != [] && (from == s.head ==> Scanned(s, from, out))
    case CRelease(from, out, k) =>
      && out != [] && k <= |out| && Holds(s, j, from, out)
      && forall q :: from + k <= q < from + |out| ==> Unreleased(s.n, s.seqs, s.tail, q)
    case CCounting(from, out) => out != [] && Holds(s, j, from, out)
  }

  /** Positions this producer has claimed and not yet added to ring_count. */
  function Uncounted(p: Producer): nat
  {
    if p.PClaimed? || p.PStored? || p.PCounting? then 1 else 0
  }

  /** Positions this consumer has taken and not yet subtracted from ring_count. */
  function Unsubtracted(c: Consumer): nat
  {
    if c.CRelease? || c.CCounting? then |c.out| else 0
  }

  function AllUncounted(ps: seq<Producer>): nat
  {
    if ps == [] then 0 else Uncounted(ps[0]) + AllUncounted(ps[1..])
  }

  function AllUnsubtracted(cs: seq<Consumer>): nat
  {
    if cs == [] then 0 else Unsubtracted(cs[0]) + AllUnsubtracted(cs[1..])
  }

  /** ring_count is the ring's length up to the threads that are between their CAS and their count. */
  ghost predicate CountOk(s: State)
  {
    s.count == s.tail - s.head - AllUncounted(s.prods) + AllUnsubtracted(s.cons)
  }

  ghost predicate Cells(s: State)
    requires Shape(s)
  {
    forall p :: s.tail <= p < s.tail + s.n ==> CellOk(s, p)
  }

  ghost predicate Producers(s: State)
    requires Shape(s)
  {
    forall i :: 0 <= i < |s.prods| ==> ProducerOk(s, i)
  }

  ghost predicate Consumers(s: State)
    requires Shape(s)
  {
    forall j :: 0 <= j < |s.cons| ==> ConsumerOk(s, j)
  }

  ghost predicate TakenOk(s: State)
    requires Shape(s)
  {
    forall q :: 0 <= q < s.head ==> s.taken[q] == s.log[q].task
  }

  ghost predicate Inv(s: State)
  {
    Shape(s) && Cells(s) && Producers(s) && Consumers(s) && TakenOk(s)
  }

  // ---------------------------------------------------------------- proof

  lemma {:induction false} CellIsRemainder(n: nat, pos: nat)
    requires n > 0
    ensures Cell(n, pos) == pos % n
    decreases pos
  {
    if pos >= n {
      CellIsRemainder(n, pos - n);
      var k, c := (pos - n) / n, (pos - n) % n;
      assert pos == n * (k + 1) + c;
      RemainderUnique(n, pos, k + 1, c);
    }
  }

  /** Two positions less than a revolution apart never share a cell. */
  lemma {:induction false} CellsDistinct(n: nat, p: nat, q: nat)
    requires n > 0 && p < q < p + n
    ensures Cell(n, p) != Cell(n, q)
    decreases p
  {
    if p >= n {
      CellsDistinct(n, p - n, q - n);
    } else if q >= n {
      assert Cell(n, q) == q - n;
    }
  }

  lemma WindowDistinct(n: nat, lo: nat, p0: nat)
    requires n > 0 && lo <= p0 < lo + n
    ensures forall p :: lo <= p < lo + n && p != p0 ==> Cell(n, p) != Cell(n, p0)
  {
    forall p | lo <= p < lo + n && p != p0 ensures Cell(n, p) != Cell(n, p0) {
      if p < p0 { CellsDistinct(n, p, p0); } else { CellsDistinct(n, p0, p); }
    }
  }

  lemma InitInv(s: State)
    requires Init(s)
    ensures Inv(s)
  {
  }

  /** A consumer's facts survive any step that keeps head, extends the claim log, and keeps full what
      lies in [head, tail) or is still under release by this consumer. */
  lemma ConsumerFrame(s: State, s': State, j: nat)
    requires Shape(s) && Shape(s') && j < |s.cons| && ConsumerOk(s, j)
    requires j < |s'.cons| && s'.cons[j] == s.cons[j]
    requires s'.n == s.n && s'.head == s.head && s.tail <= s'.tail && s.log <= s'.log && s'.takenBy == s.takenBy
    requires forall q :: s.head <= q < s.tail && Full(s.n, s.seqs, q) ==> Full(s'.n, s'.seqs, q)
    requires forall q ::
               0 <= q < s.head && s.takenBy[q] == j && Unreleased(s.n, s.seqs, s.tail, q) && Releasing(s, q) ==>
                 Unreleased(s'.n, s'.seqs, s'.tail, q)
    ensures ConsumerOk(s', j)
  {
    var c := s.cons[j];
    if c.CRelease? {
      forall q | c.from + c.k <= q < c.from + |c.out| ensures Unreleased(s'.n, s'.seqs, s'.tail, q) {
        assert Unreleased(s.n, s.seqs, s.tail, q);
      }
    }
  }

  lemma StepEnqueue(s: State, i: nat, t: TaskId)
    requires Inv(s) && Enabled(s, Enqueue(i, t))
    ensures Inv(Do(s, Enqueue(i, t)))
  {
    ProducerMoves(s, i, PLoaded(t, s.tail));
  }

  /** A producer that owns no position before or after moves on its own. */
  lemma ProducerMoves(s: State, i: nat, p: Producer)
    requires Inv(s) && i < |s.prods|
    requires s.prods[i].PIdle? || s.prods[i].PLoaded? || s.prods[i].PFree?
    requires p.PIdle? || p.PLoaded? || p.PFree?
    requires ProducerOk(SetProd(s, i, p), i)
    ensures Inv(SetProd(s, i, p))
  {
    var s' := SetProd(s, i, p);
    forall q | s'.tail <= q < s'.tail + s'.n ensures CellOk(s', q) {
      assert CellOk(s, q);
    }
    forall k | 0 <= k < |s'.prods| ensures ProducerOk(s', k) {
      assert ProducerOk(s, k);
    }
    forall j | 0 <= j < |s'.cons| ensures ConsumerOk(s', j) {
      ConsumerFrame(s, s', j);
    }
  }

  lemma ClaimShape(s: State, i: nat)
    requires Shape(s) && Cells(s) && i < |s.prods| && ProducerOk(s, i) && s.prods[i].PFree? && s.prods[i].at == s.tail
    ensures Shape(ProduceStep(s, i))
  {
    assert CellOk(s, s.tail);
  }

  lemma ClaimCells(s: State, i: nat)
    requires Shape(s) && Cells(s) && i < |s.prods| && ProducerOk(s, i) && s.prods[i].PFree? && s.prods[i].at == s.tail
    requires Shape(ProduceStep(s, i))
    ensures Cells(ProduceStep(s, i))
  {
    var s' := ProduceStep(s, i);
    forall p | s'.tail <= p < s'.tail + s'.n ensures CellOk(s', p) {
      if p < s.tail + s.n {
        assert CellOk(s, p);
      } else {
        assert Cell(s.n, p) == Cell(s.n, s.tail);
      }
    }
  }

  lemma ClaimConsumers(s: State, i: nat)
    requires Shape(s) && Consumers(s) && i < |s.prods| && ProducerOk(s, i)
    requires s.prods[i].PFree? && s.prods[i].at == s.tail
    requires Shape(ProduceStep(s, i))
    ensures Consumers(ProduceStep(s, i))
  {
    var s' := ProduceStep(s, i);
    forall j | 0 <= j < |s'.cons| ensures ConsumerOk(s', j) {
      forall q | 0 <= q < s.head && q + s.n == s.tail ensures !Full(s.n, s.seqs, q) {
        assert Cell(s.n, s.tail) == Cell(s.n, q);
      }
      ConsumerFrame(s, s', j);
    }
  }

  /** The CAS on ring_tail: the cell observed free for `at` is still free, so the position before it in
      that cell has been taken and released. */
  lemma StepClaim(s: State, i: nat)
    requires Inv(s) && Enabled(s, Produce(i)) && s.prods[i].PFree?
    ensures Inv(Do(s, Produce(i)))
  {
    assert ProducerOk(s, i);
    ClaimShape(s, i);
    ClaimCells(s, i);
    ClaimConsumers(s, i);
    var s' := Do(s, Produce(i));
    forall k | 0 <= k < |s'.prods| ensures ProducerOk(s', k) {
      assert ProducerOk(s, k);
    }
  }

  lemma StepStore(s: State, i: nat)
    requires Inv(s) && Enabled(s, Produce(i)) && s.prods[i].PClaimed?
    ensures Inv(Do(s, Produce(i)))
  {
    var s' := Do(s, Produce(i));
    var at := s.prods[i].at;
    assert ProducerOk(s, i);
    WindowDistinct(s.n, s.head, at);
    forall p | s'.tail <= p < s'.tail + s'.n ensures CellOk(s', p) {
      assert CellOk(s, p);
    }
    forall k | 0 <= k < |s'.prods| ensures ProducerOk(s', k) {
      assert ProducerOk(s, k);
    }
    forall j | 0 <= j < |s'.cons| ensures ConsumerOk(s', j) {
      ConsumerFrame(s, s', j);
    }
  }

  /** Every other live position, and every other position of the window, lies in another cell. */
  lemma LiveDistinct(s: State, at: nat)
    requires Shape(s) && at < s.tail <= at + s.n
    ensures Cell(s.n, at + s.n) == Cell(s.n, at)
    ensures forall p :: s.tail <= p < s.tail + s.n && p != at + s.n ==> Cell(s.n, p) != Cell(s.n, at)
    ensures forall q: nat :: s.tail <= q + s.n && q < s.tail && q != at ==> Cell(s.n, q) != Cell(s.n, at)
  {
    WindowDistinct(s.n, s.tail, at + s.n);
    forall q: nat | s.tail <= q + s.n && q < s.tail && q != at ensures Cell(s.n, q) != Cell(s.n, at) {
      if q < at { CellsDistinct(s.n, q, at); } else { CellsDistinct(s.n, at, q); }
    }
  }

  lemma PublishProducers(s: State, i: nat, k: nat)
    requires Shape(s) && i < |s.prods| && ProducerOk(s, i) && s.prods[i].PStored?
    requires k < |s.prods| && ProducerOk(s, k)
    ensures ProducerOk(ProduceStep(s, i), k)
  {
    LiveDistinct(s, s.prods[i].at);
  }

  lemma PublishConsumers(s: State, i: nat, j: nat)
    requires Shape(s) && i < |s.prods| && ProducerOk(s, i) && s.prods[i].PStored?
    requires j < |s.cons| && ConsumerOk(s, j)
    ensures ConsumerOk(ProduceStep(s, i), j)
  {
    LiveDistinct(s, s.prods[i].at);
    ConsumerFrame(s, ProduceStep(s, i), j);
  }

  lemma PublishCells(s: State, i: nat)
    requires Shape(s) && Cells(s) && i < |s.prods| && ProducerOk(s, i) && s.prods[i].PStored?
    ensures Cells(ProduceStep(s, i))
  {
    var s' := ProduceStep(s, i);
    LiveDistinct(s, s.prods[i].at);
    forall p | s'.tail <= p < s'.tail + s'.n ensures CellOk(s', p) {
      assert CellOk(s, p);
    }
  }

  lemma StepPublish(s: State, i: nat)
    requires Inv(s) && Enabled(s, Produce(i)) && s.prods[i].PStored?
    ensures Inv(Do(s, Produce(i)))
  {
    var s' := Do(s, Produce(i));
    assert ProducerOk(s, i);
    PublishCells(s, i);
    forall k | 0 <= k < |s'.prods| ensures ProducerOk(s', k) {
      PublishProducers(s, i, k);
    }
    forall j | 0 <= j < |s'.cons| ensures ConsumerOk(s', j) {
      PublishConsumers(s, i, j);
    }
  }

  lemma StepCounted(s: State, i: nat)
    requires Inv(s) && Enabled(s, Produce(i)) && s.prods[i].PCounting?
    ensures Inv(Do(s, Produce(i)))
  {
    var s' := Do(s, Produce(i));
    assert ProducerOk(s, i);
    forall p | s'.tail <= p < s'.tail + s'.n ensures CellOk(s', p) {
      assert CellOk(s, p);
    }
    forall k | 0 <= k < |s'.prods| ensures ProducerOk(s', k) {
      assert ProducerOk(s, k);
    }
    forall j | 0 <= j < |s'.cons| ensures ConsumerOk(s', j) {
      ConsumerFrame(s, s', j);
    }
  }

  lemma StepProduce(s: State, i: nat)
    requires Inv(s) && Enabled(s, Produce(i))
    ensures Inv(Do(s, Produce(i)))
  {
    assert ProducerOk(s, i);
    match s.prods[i]
    case PLoaded(t, at) => ProducerMoves(s, i, Do(s, Produce(i)).prods[i]);
    case PFree(_, _) => StepClaim(s, i);
    case PClaimed(_, _) => StepStore(s, i);
    case PStored(_, _) => StepPublish(s, i);
    case PCounting(_) => StepCounted(s, i);
  }

  /** A consumer that holds no position before or after moves on its own. */
  lemma ConsumerMoves(s: State, j: nat, c: Consumer)
    requires Inv(s) && j < |s.cons|
    requires s.cons[j].CIdle? || s.cons[j].CScan? || s.cons[j].CFull? || s.cons[j].CReady?
    requires c.CIdle? || c.CScan? || c.CFull? || c.CReady?
    requires ConsumerOk(SetCons(s, j, c), j)
    ensures Inv(SetCons(s, j, c))
  {
    var s' := SetCons(s, j, c);
    forall p | s'.tail <= p < s'.tail + s'.n ensures CellOk(s', p) {
      assert CellOk(s, p);
    }
    forall i | 0 <= i < |s'.prods| ensures ProducerOk(s', i) {
      assert ProducerOk(s, i);
    }
    forall k | 0 <= k < |s'.cons| ensures ConsumerOk(s', k) {
      if k != j { ConsumerFrame(s, s', k); }
    }
  }

  lemma StepScan(s: State, j: nat)
    requires Inv(s) && Enabled(s, Consume(j)) && s.cons[j].CScan?
    ensures Inv(Do(s, Consume(j)))
  {
    var s' := Do(s, Consume(j));
    assert ConsumerOk(s, j);
    var at := s.cons[j].from + |s.cons[j].out|;
    if s.cons[j].from == s.head && at == s.tail {
      assert CellOk(s, at);
    }
    ConsumerMoves(s, j, s'.cons[j]);
  }

  lemma StepRead(s: State, j: nat)
    requires Inv(s) && Enabled(s, Consume(j)) && s.cons[j].CFull?
    ensures Inv(Do(s, Consume(j)))
  {
    var s' := Do(s, Consume(j));
    assert ConsumerOk(s, j);
    var at := s.cons[j].from + |s.cons[j].out|;
    if s.cons[j].from == s.head {
      assert Cell(s.n, at + s.n) == Cell(s.n, at);
      assert CellOk(s, at + s.n);
    }
    ConsumerMoves(s, j, s'.cons[j]);
  }

  lemma TakeCells(s: State, j: nat)
    requires Shape(s) && Cells(s) && j < |s.cons| && ConsumerOk(s, j) && s.cons[j].CReady? && s.cons[j].from == s.head
    ensures Shape(ConsumeStep(s, j)) && Cells(ConsumeStep(s, j))
  {
    var s' := ConsumeStep(s, j);
    forall p | s'.tail <= p < s'.tail + s'.n ensures CellOk(s', p) {
      assert CellOk(s, p);
      if p >= s.n {
        assert Cell(s.n, p) == Cell(s.n, p - s.n);
      }
    }
  }

  lemma TakeConsumer(s: State, j: nat, k: nat)
    requires Shape(s) && j < |s.cons| && ConsumerOk(s, j) && s.cons[j].CReady? && s.cons[j].from == s.head
    requires k < |s.cons| && ConsumerOk(s, k)
    requires Shape(ConsumeStep(s, j))
    ensures ConsumerOk(ConsumeStep(s, j), k)
  {
    var s' := ConsumeStep(s, j);
    if k == j {
      forall q | s.head <= q < s'.head ensures Unreleased(s'.n, s'.seqs, s'.tail, q) {
        assert Full(s.n, s.seqs, q);
      }
    }
  }

  /** The CAS on ring_head: head did not move since it was read, so nothing scanned was touched. */
  lemma StepTake(s: State, j: nat)
    requires Inv(s) && Enabled(s, Consume(j)) && s.cons[j].CReady?
    ensures Inv(Do(s, Consume(j)))
  {
    var s' := Do(s, Consume(j));
    assert ConsumerOk(s, j);
    TakeCells(s, j);
    forall i | 0 <= i < |s'.prods| ensures ProducerOk(s', i) {
      assert ProducerOk(s, i);
    }
    forall k | 0 <= k < |s'.cons| ensures ConsumerOk(s', k) {
      TakeConsumer(s, j, k);
    }
  }

  lemma ReleaseProducers(s: State, j: nat, i: nat)
    requires Shape(s) && j < |s.cons| && ConsumerOk(s, j)
    requires s.cons[j].CRelease? && s.cons[j].k < |s.cons[j].out|
    requires i < |s.prods| && ProducerOk(s, i)
    ensures ProducerOk(ConsumeStep(s, j), i)
  {
    var at := s.cons[j].from + s.cons[j].k;
    assert Unreleased(s.n, s.seqs, s.tail, at);
    LiveDistinct(s, at);
  }

  lemma ReleaseConsumers(s: State, j: nat, k: nat)
    requires Shape(s) && j < |s.cons| && ConsumerOk(s, j)
    requires s.cons[j].CRelease? && s.cons[j].k < |s.cons[j].out|
    requires k < |s.cons| && ConsumerOk(s, k)
    ensures ConsumerOk(ConsumeStep(s, j), k)
  {
    var s' := ConsumeStep(s, j);
    var at := s.cons[j].from + s.cons[j].k;
    assert Unreleased(s.n, s.seqs, s.tail, at);
    LiveDistinct(s, at);
    if k != j {
      ConsumerFrame(s, s', k);
    } else {
      var c := s'.cons[j];
      forall q | c.from + c.k <= q < c.from + |c.out| ensures Unreleased(s'.n, s'.seqs, s'.tail, q) {
        assert Unreleased(s.n, s.seqs, s.tail, q);
      }
    }
  }

  lemma ReleaseCell(s: State, j: nat, p: nat)
    requires Shape(s) && j < |s.cons| && ConsumerOk(s, j)
    requires s.cons[j].CRelease? && s.cons[j].k < |s.cons[j].out|
    requires s.tail <= p < s.tail + s.n && CellOk(s, p)
    ensures CellOk(ConsumeStep(s, j), p)
  {
    var at := s.cons[j].from + s.cons[j].k;
    assert Unreleased(s.n, s.seqs, s.tail, at);
    LiveDistinct(s, at);
  }

  lemma StepRelease(s: State, j: nat)
    requires Inv(s) && Enabled(s, Consume(j)) && s.cons[j].CRelease? && s.cons[j].k < |s.cons[j].out|
    ensures Inv(Do(s, Consume(j)))
  {
    var s' := Do(s, Consume(j));
    forall p | s'.tail <= p < s'.tail + s'.n ensures CellOk(s', p) {
      ReleaseCell(s, j, p);
    }
    forall i | 0 <= i < |s'.prods| ensures ProducerOk(s', i) {
      ReleaseProducers(s, j, i);
    }
    forall k | 0 <= k < |s'.cons| ensures ConsumerOk(s', k) {
      ReleaseConsumers(s, j, k);
    }
  }

  lemma StepReleased(s: State, j: nat)
    requires Inv(s) && Enabled(s, Consume(j)) && s.cons[j].CRelease? && s.cons[j].k == |s.cons[j].out|
    ensures Inv(Do(s, Consume(j)))
  {
    var s' := Do(s, Consume(j));
    assert ConsumerOk(s, j);
    forall p | s'.tail <= p < s'.tail + s'.n ensures CellOk(s', p) {
      assert CellOk(s, p);
    }
    forall i | 0 <= i < |s'.prods| ensures ProducerOk(s', i) {
      assert ProducerOk(s, i);
    }
    forall k | 0 <= k < |s'.cons| ensures ConsumerOk(s', k) {
      if k != j { ConsumerFrame(s, s', k); }
    }
  }

  lemma StepUncount(s: State, j: nat)
    requires Inv(s) && Enabled(s, Consume(j)) && s.cons[j].CCounting?
    ensures Inv(Do(s, Consume(j)))
  {
    var s' := Do(s, Consume(j));
    forall p | s'.tail <= p < s'.tail + s'.n ensures CellOk(s', p) {
      assert CellOk(s, p);
    }
    forall i | 0 <= i < |s'.prods| ensures ProducerOk(s', i) {
      assert ProducerOk(s, i);
    }
    forall k | 0 <= k < |s'.cons| ensures ConsumerOk(s', k) {
      if k != j { ConsumerFrame(s, s', k); }
    }
  }

  lemma StepConsume(s: State, j: nat)
    requires Inv(s) && Enabled(s, Consume(j))
    ensures Inv(Do(s, Consume(j)))
  {
    match s.cons[j]
    case CScan(_, _, _) => StepScan(s, j);
    case CFull(_, _, _) => StepRead(s, j);
    case CReady(_, _) => StepTake(s, j);
    case CRelease(_, out, k) =>
      assert ConsumerOk(s, j);
      if k < |out| { StepRelease(s, j); } else { StepReleased(s, j); }
    case CCounting(_, _) => StepUncount(s, j);
  }

  lemma InvStep(s: State, s': State)
    requires Inv(s) && Next(s, s')
    ensures Inv(s')
  {
    var a :| Enabled(s, a) && s' == Do(s, a);
    match a
    case Enqueue(i, t) => StepEnqueue(s, i, t);
    case Produce(i) => StepProduce(s, i);
    case ClaimFails(i) => ProducerMoves(s, i, PLoaded(s.prods[i].task, s.tail));
    case Dequeue(j, max) => ConsumerMoves(s, j, CScan(s.head, max, []));
    case Consume(j) => StepConsume(s, j);
    case TakeFails(j) => ConsumerMoves(s, j, CIdle);
  }

  lemma {:induction false} UncountedUpdate(ps: seq<Producer>, i: nat, p: Producer)
    requires i < |ps|
    ensures AllUncounted(ps[i := p]) == AllUncounted(ps) - Uncounted(ps[i]) + Uncounted(p)
  {
    if i == 0 {
      assert ps[i := p][1..] == ps[1..];
    } else {
      UncountedUpdate(ps[1..], i - 1, p);
      assert ps[i := p][1..] == ps[1..][i - 1 := p];
    }
  }

  lemma {:induction false} UnsubtractedUpdate(cs: seq<Consumer>, j: nat, c: Consumer)
    requires j < |cs|
    ensures AllUnsubtracted(cs[j := c]) == AllUnsubtracted(cs) - Unsubtracted(cs[j]) + Unsubtracted(c)
  {
    if j == 0 {
      assert cs[j := c][1..] == cs[1..];
    } else {
      UnsubtractedUpdate(cs[1..], j - 1, c);
      assert cs[j := c][1..] == cs[1..][j - 1 := c];
    }
  }

  lemma CountProduce(s: State, i: nat)
    requires CountOk(s) && Enabled(s, Produce(i))
    ensures CountOk(ProduceStep(s, i))
  {
    var s' := ProduceStep(s, i);
    UncountedUpdate(s.prods, i, s'.prods[i]);
    assert s'.prods == s.prods[i := s'.prods[i]];
  }

  lemma CountConsume(s: State, j: nat)
    requires CountOk(s) && Enabled(s, Consume(j))
    ensures CountOk(ConsumeStep(s, j))
  {
    var s' := ConsumeStep(s, j);
    UnsubtractedUpdate(s.cons, j, s'.cons[j]);
    assert s'.cons == s.cons[j := s'.cons[j]];
  }

  lemma CountStep(s: State, a: Step)
    requires CountOk(s) && Enabled(s, a)
    ensures CountOk(Do(s, a))
  {
    match a
    case Enqueue(i, t) => UncountedUpdate(s.prods, i, PLoaded(t, s.tail));
    case Produce(i) => CountProduce(s, i);
    case ClaimFails(i) => UncountedUpdate(s.prods, i, PLoaded(s.prods[i].task, s.tail));
    case Dequeue(j, max) => UnsubtractedUpdate(s.cons, j, CScan(s.head, max, []));
    case Consume(j) => CountConsume(s, j);
    case TakeFails(j) => UnsubtractedUpdate(s.cons, j, CIdle);
  }

  lemma {:induction false} AllIdleCountsZero(ps: seq<Producer>, cs: seq<Consumer>)
    requires forall k :: 0 <= k < |ps| ==> ps[k].PIdle?
    requires forall k :: 0 <= k < |cs| ==> cs[k].CIdle?
    ensures AllUncounted(ps) == 0 && AllUnsubtracted(cs) == 0
    decreases |ps| + |cs|
  {
    if ps != [] { AllIdleCountsZero(ps[1..], cs); }
    else if cs != [] { AllIdleCountsZero(ps, cs[1..]); }
  }

  // ---------------------------------------------------------------- theorems

  function Tasks(log: seq<Claim>): (ts: seq<TaskId>)
    ensures |ts| == |log|
    ensures forall q :: 0 <= q < |log| ==> ts[q] == log[q].task
  {
    seq(|log|, q requires 0 <= q < |log| => log[q].task)
  }

  lemma Reachable(r: seq<State>)
    requires IsRun(Init, Next, r)
    ensures forall i :: 0 <= i < |r| ==> Inv(r[i])
  {
    forall s | Init(s) ensures Inv(s) { InitInv(s); }
    forall s, s' | Inv(s) && Next(s, s') ensures Inv(s') { InvStep(s, s'); }
    RunKeeps(Init, Next, Inv, r);
  }

  /** Steps only append to the history: a claim or a take is never revised. */
  lemma HistoryGrows(s: State, s': State)
    requires Next(s, s')
    ensures s.log <= s'.log && s.taken <= s'.taken && s.takenBy <= s'.takenBy
  {
  }

  lemma {:induction false} HistoryKept(r: seq<State>, i: nat, k: nat)
    requires IsRun(Init, Next, r) && i <= k < |r|
    ensures r[i].log <= r[k].log && r[i].taken <= r[k].taken && r[i].takenBy <= r[k].takenBy
    decreases k
  {
    if i < k {
      HistoryKept(r, i, k - 1);
      StepAt(Init, Next, r, k);
      HistoryGrows(r[k - 1], r[k]);
    }
  }

  /** Main result.  In every state of every run, whatever the interleaving, the tasks handed to
      consumers are exactly the first `head` claims in claim order; claims and takes are never revised
      later; and every claimed position beyond `head` that its producer has published is still intact in
      its cell. */
  lemma TakenExactlyOnceInClaimOrder(r: seq<State>, i: nat)
    requires IsRun(Init, Next, r) && i < |r|
    ensures Shape(r[i])
    ensures r[i].taken == Tasks(r[i].log[..r[i].head])
    ensures forall k :: i <= k < |r| ==>
              r[i].log <= r[k].log && r[i].taken <= r[k].taken && r[i].takenBy <= r[k].takenBy
    ensures forall q :: r[i].head <= q < r[i].tail && !Pending(r[i], q) ==>
              Full(r[i].n, r[i].seqs, q) && r[i].slots[Cell(r[i].n, q)] == r[i].log[q].task
  {
    Reachable(r);
    forall q | r[i].head <= q < r[i].tail && !Pending(r[i], q)
      ensures Full(r[i].n, r[i].seqs, q) && r[i].slots[Cell(r[i].n, q)] == r[i].log[q].task
    {
      PublishedIntact(r[i], q);
    }
    forall k | i <= k < |r| ensures r[i].log <= r[k].log && r[i].taken <= r[k].taken && r[i].takenBy <= r[k].takenBy {
      HistoryKept(r, i, k);
    }
  }

  lemma PublishedIntact(s: State, q: nat)
    requires Inv(s) && s.head <= q < s.tail && !Pending(s, q)
    ensures Full(s.n, s.seqs, q) && s.slots[Cell(s.n, q)] == s.log[q].task
  {
    assert CellOk(s, q + s.n);
    assert Cell(s.n, q + s.n) == Cell(s.n, q);
  }

  /** The batch a consumer returns is a contiguous run of claims, and no two consumers hold the same
      position. */
  lemma BatchesAreDisjointRuns(r: seq<State>, i: nat, j: nat, k: nat)
    requires IsRun(Init, Next, r) && i < |r|
    requires j < |r[i].cons| && r[i].cons[j].CCounting?
    requires k < |r[i].cons| && r[i].cons[k].CCounting? && k != j
    ensures var c, d := r[i].cons[j], r[i].cons[k];
            && c.from + |c.out| <= |r[i].log|
            && c.out == Tasks(r[i].log[c.from..c.from + |c.out|])
            && (c.from + |c.out| <= d.from || d.from + |d.out| <= c.from)
  {
    Reachable(r);
    assert ConsumerOk(r[i], j) && ConsumerOk(r[i], k);
    var c, d := r[i].cons[j], r[i].cons[k];
    var q := if c.from < d.from then d.from else c.from;
    assert c.from <= q < c.from + |c.out| ==> r[i].takenBy[q] == j;
    assert d.from <= q < d.from + |d.out| ==> r[i].takenBy[q] == k;
    forall x | 0 <= x < |c.out| ensures c.out[x] == Tasks(r[i].log[c.from..c.from + |c.out|])[x] {
      assert c.out[c.from + x - c.from] == r[i].log[c.from + x].task;
    }
  }

  /** In every reachable state ring_count is the number of untaken positions, off only by the threads
      between their CAS and their count; when no thread is inside the ring it is exact, and every
      position in the ring is published. */
  lemma RingCountTracksLength(r: seq<State>, i: nat)
    requires IsRun(Init, Next, r) && i < |r|
    ensures Shape(r[i]) && CountOk(r[i])
    ensures (forall k :: 0 <= k < |r[i].prods| ==> r[i].prods[k].PIdle?) &&
            (forall k :: 0 <= k < |r[i].cons| ==> r[i].cons[k].CIdle?) ==>
              && r[i].count == r[i].tail - r[i].head
              && forall q :: r[i].head <= q < r[i].tail ==> Full(r[i].n, r[i].seqs, q)
  {
    var s := r[i];
    Reachable(r);
    forall s | Init(s) ensures CountOk(s) { AllIdleCountsZero(s.prods, s.cons); }
    forall s, s' | CountOk(s) && Next(s, s') ensures CountOk(s') {
      var a :| Enabled(s, a) && s' == Do(s, a);
      CountStep(s, a);
    }
    RunKeeps(Init, Next, CountOk, r);
    if (forall k :: 0 <= k < |s.prods| ==> s.prods[k].PIdle?) && (forall k :: 0 <= k < |s.cons| ==> s.cons[k].CIdle?) {
      AllIdleCountsZero(s.prods, s.cons);
      forall q | s.head <= q < s.tail ensures Full(s.n, s.seqs, q) {
        PublishedIntact(s, q);
      }
    }
  }

  /** A refusal with a current tail means a full revolution is outstanding: the previous position of
      that cell is not taken yet, or its consumer has not released it yet. */
  lemma RefusedOnlyWhenFull(r: seq<State>, k: nat, i: nat)
    requires IsRun(Init, Next, r) && k < |r|
    requires i < |r[k].prods| && r[k].prods[i].PLoaded? && r[k].prods[i].at == r[k].tail
    ensures Shape(r[k])
    ensures ProduceStep(r[k], i).prods[i].PIdle? <==>
              r[k].tail >= r[k].n && (r[k].tail == r[k].head + r[k].n || Releasing(r[k], r[k].tail - r[k].n))
  {
    Reachable(r);
    var s := r[k];
    assert CellOk(s, s.tail);
    if s.tail >= s.n && s.tail - s.n < s.head && Releasing(s, s.tail - s.n) {
      var q := s.tail - s.n;
      assert ConsumerOk(s, s.takenBy[q]);
      assert Unreleased(s.n, s.seqs, s.tail, q);
      assert Cell(s.n, s.tail) == Cell(s.n, q);
    }
  }

  // ---------------------------------------------------------------- refinement

  /** What the ring promises: claims in order, publication in any order, batches taken from the front. */
  datatype Queue = Queue(log: seq<TaskId>, head: nat, ready: set<nat>)

  ghost predicate QueueClaim(n: nat, u: Queue, u': Queue)
  {
    && |u.log| < u.head + n
    && exists t :: u' == u.(log := u.log + [t])
  }

  ghost predicate QueuePublish(u: Queue, u': Queue)
  {
    exists q :: u.head <= q < |u.log| && q !in u.ready && u' == u.(ready := u.ready + {q})
  }

  ghost predicate QueueTake(u: Queue, u': Queue)
  {
    && u.head < u'.head <= |u.log|
    && (forall q :: u.head <= q < u'.head ==> q in u.ready)
    && u' == u.(head := u'.head, ready := set q | q in u.ready && q >= u'.head)
  }

  function Abs(s: State): Queue
    requires Shape(s)
  {
    Queue(Tasks(s.log), s.head, set q | s.head <= q < s.tail && Full(s.n, s.seqs, q))
  }

  lemma RefinesClaim(s: State, i: nat)
    requires Inv(s) && Enabled(s, Produce(i)) && s.prods[i].PFree? && Inv(Do(s, Produce(i)))
    ensures QueueClaim(s.n, Abs(s), Abs(Do(s, Produce(i))))
  {
    var s' := Do(s, Produce(i));
    var at := s.tail;
    assert ProducerOk(s, i) && CellOk(s', at + s.n);
    assert Cell(s.n, at + s.n) == Cell(s.n, at);
    assert Tasks(s'.log) == Tasks(s.log) + [s.prods[i].task];
    assert Abs(s').ready == Abs(s).ready;
  }

  lemma RefinesPublish(s: State, i: nat)
    requires Inv(s) && Enabled(s, Produce(i)) && s.prods[i].PStored?
    ensures QueuePublish(Abs(s), Abs(Do(s, Produce(i))))
  {
    var s' := Do(s, Produce(i));
    assert ProducerOk(s, i);
    var at := s.prods[i].at;
    LiveDistinct(s, at);
    assert Abs(s').ready == Abs(s).ready + {at};
  }

  lemma RefinesTake(s: State, j: nat)
    requires Inv(s) && Enabled(s, Consume(j)) && s.cons[j].CReady? && Inv(Do(s, Consume(j)))
    ensures QueueTake(Abs(s), Abs(Do(s, Consume(j))))
  {
    var s' := Do(s, Consume(j));
    assert ConsumerOk(s, j);
    var u, u' := Abs(s), Abs(s');
    assert u'.ready == set q | q in u.ready && q >= u'.head;
  }

  lemma RefinesRelease(s: State, j: nat)
    requires Inv(s) && Enabled(s, Consume(j)) && s.cons[j].CRelease?
    ensures Abs(Do(s, Consume(j))) == Abs(s)
  {
    var s' := Do(s, Consume(j));
    assert ConsumerOk(s, j);
    var c := s.cons[j];
    if c.k < |c.out| {
      assert Unreleased(s.n, s.seqs, s.tail, c.from + c.k);
      LiveDistinct(s, c.from + c.k);
    }
    assert Abs(s').ready == Abs(s).ready;
  }

  /** Every atomic step of the ring is a claim, a publication, a batch take, or invisible. */
  lemma RefinesQueue(s: State, s': State)
    requires Inv(s) && Next(s, s')
    ensures Inv(s')
    ensures || Abs(s') == Abs(s)
            || QueueClaim(s.n, Abs(s), Abs(s'))
            || QueuePublish(Abs(s), Abs(s'))
            || QueueTake(Abs(s), Abs(s'))
  {
    InvStep(s, s');
    var a :| Enabled(s, a) && s' == Do(s, a);
    match a
    case Produce(i) =>
      if s.prods[i].PFree? { RefinesClaim(s, i); }
      else if s.prods[i].PStored? { RefinesPublish(s, i); }
      else { assert s'.seqs == s.seqs && s'.log == s.log; }
    case Consume(j) =>
      if s.cons[j].CReady? { RefinesTake(s, j); }
      else if s.cons[j].CRelease? { RefinesRelease(s, j); }
      else { assert s'.seqs == s.seqs && s'.log == s.log; }
    case _ => assert s'.seqs == s.seqs && s'.log == s.log;
  }

  // ---------------------------------------------------------------- why one cell is not enough

  /** With a single cell, "full" (pos + 1) and "released" (pos + 1) coincide: a second producer claims
      and overwrites the published, untaken first task. */
  lemma SizeOneOverwrites() returns (r: seq<State>)
    ensures IsRun(Fresh, Next, r)
    ensures var s := r[|r| - 1];
            && s.n == 1 && s.prods == [PIdle]
            && s.head == 0 && s.log == [Claim(7, 0), Claim(8, 0)] && s.slots == [8] && s.seqs == [2]
  {
    r := [State(1, 0, 0, [0], [0], 0, [PIdle], [], [], [], [])];
    r := FillOne(r, 7);
    r := FillOne(r, 8);
  }

  /** The producer of a one-cell ring runs through one whole enqueue. */
  lemma FillOne(r: seq<State>, t: TaskId) returns (r': seq<State>)
    requires IsRun(Fresh, Next, r)
    requires var s := r[|r| - 1];
             && s.n == 1 && |s.slots| == 1 && s.prods == [PIdle] && s.seqs == [s.tail]
    ensures IsRun(Fresh, Next, r')
    ensures var s, s' := r[|r| - 1], r'[|r'| - 1];
            s' == s.(tail := s.tail + 1, seqs := [s.tail + 1], slots := [t],
                    log := s.log + [Claim(t, 0)], count := s.count + 1)
  {
    var s := r[|r| - 1];
    r' := Extend(r, Enqueue(0, t));
    r' := Extend(r', Produce(0));
    assert r'[|r'| - 1].prods == [PFree(t, s.tail)];
    r' := Extend(r', Produce(0));
    r' := Extend(r', Produce(0));
    assert r'[|r'| - 1].prods == [PStored(t, s.tail)] && r'[|r'| - 1].slots == [t];
    r' := Extend(r', Produce(0));
    assert r'[|r'| - 1].prods == [PCounting(s.tail)] && r'[|r'| - 1].seqs == [s.tail + 1];
    r' := Extend(r', Produce(0));
    assert r'[|r'| - 1].prods == [PIdle];
  }

  lemma Extend(r: seq<State>, a: Step) returns (r': seq<State>)
    requires IsRun(Fresh, Next, r) && Enabled(r[|r| - 1], a)
    ensures IsRun(Fresh, Next, r')
    ensures r' == r + [Do(r[|r| - 1], a)]
  {
    var s' := Do(r[|r| - 1], a);
    r' := r + [s'];
    assert Next(r[|r| - 1], s');
    Extended(Fresh, Next, r, s');
  }
}
