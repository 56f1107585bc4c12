/** The per-worker work-stealing deques.  Every caller in the worker loop holds the pool lock, so push,
    pop and steal run one at a time. */
module WorkDeque {
  import opened Collections
  import opened Lanes

  /** `x & mask` */
  function Slot(x: nat): (s: nat)
    ensures s < DEQUE_CAPACITY
  {
    x % DEQUE_CAPACITY
  }

  lemma SlotsDiffer(x: nat, y: nat)
    requires x < y < x + DEQUE_CAPACITY
    ensures Slot(x) != Slot(y)
  {
  }

  class Deques {
    const slots: array2<Task?>
    const top: array<nat>
    const bottom: array<nat>
    const len: array<int>
    /** `deque_total` */
    var total: int
    /** What each deque stands for, oldest first. */
    ghost var items: seq<seq<Task>>

    ghost predicate Shape()
      reads `items
    {
      && slots.Length1 == DEQUE_CAPACITY && top != bottom
      && top.Length == bottom.Length == len.Length == slots.Length0 == |items|
    }

    ghost predicate SlotOk(w: nat, i: nat)
      requires Shape() && w < |items| && i < |items[w]|
      reads `items, slots, top
    {
      slots[w, Slot(top[w] + i)] == items[w][i]
    }

    ghost predicate DequeOk(w: nat)
      requires Shape() && w < |items|
      reads `items, slots, top, bottom, len
    {
      && |items[w]| <= DEQUE_CAPACITY && bottom[w] == top[w] + |items[w]| && len[w] == |items[w]|
      && forall i {:trigger SlotOk(w, i)} :: 0 <= i < |items[w]| ==> SlotOk(w, i)
    }

    /** `len` is bottom minus top for every deque, and `deque_total` the sum of them. */
    ghost predicate Valid()
      reads this, slots, top, bottom, len
    {
      && Shape() && (forall w {:trigger DequeOk(w)} :: 0 <= w < |items| ==> DequeOk(w))
      && total == Sizes(items)
    }

    /** `deque_push` */
    method Push(w: nat, task: Task) returns (ok: bool)
      requires Valid() && w < |items|
      modifies this, slots, bottom, len
      ensures Valid() && (ok <==> |old(items)[w]| < DEQUE_CAPACITY)
      ensures items == if ok then old(items)[w := old(items)[w] + [task]] else old(items)
    {
      var b, t := bottom[w], top[w];
      assert DequeOk(w);
      if b - t >= DEQUE_CAPACITY { return false; }
      SizesUpdate(items, w, items[w] + [task]);
      slots[w, Slot(b)] := task;
      bottom[w] := b + 1;
      len[w] := len[w] + 1;
      total := total + 1;
      items := items[w := items[w] + [task]];
      forall v | 0 <= v < |items| ensures DequeOk(v) {
        assert old(DequeOk(v));
        forall i | 0 <= i < |items[v]| ensures SlotOk(v, i) {
          if i < |old(items)[v]| {
            assert old(SlotOk(v, i));
            if v == w { SlotsDiffer(t + i, b); }
          }
        }
      }
      return true;
    }

    /** `deque_pop`: the newest task.  Of the slow path only the two cases without a concurrent thief
        remain: nothing left, or the last task, which is taken by moving `top` past it. */
    method Pop(w: nat) returns (task: Task?)
      requires Valid() && w < |items|
      modifies this, top, bottom, len
      ensures Valid() && (task == null <==> old(items)[w] == [])
      ensures task == null ==> items == old(items)
      ensures task != null ==> task == old(items)[w][|old(items)[w]| - 1]
      ensures task != null ==> items == old(items)[w := old(items)[w][..|old(items)[w]| - 1]]
    {
      assert DequeOk(w);
      var b := bottom[w];
      if b == 0 { return null; }
      var t := top[w];
      b := b - 1;
      bottom[w] := b;
      if b < t {
        bottom[w] := t;
        forall v | 0 <= v < |items| ensures DequeOk(v) {
          assert old(DequeOk(v));
          forall i | 0 <= i < |items[v]| ensures SlotOk(v, i) { assert old(SlotOk(v, i)); }
        }
        return null;
      }
      assert SlotOk(w, |items[w]| - 1);
      task := slots[w, Slot(b)];
      if b == t {
        top[w] := t + 1;
        bottom[w] := t + 1;
      }
      len[w] := len[w] - 1;
      total := total - 1;
      ghost var rest := items[w][..|items[w]| - 1];
      SizesUpdate(items, w, rest);
      items := items[w := rest];
      forall v | 0 <= v < |items| ensures DequeOk(v) {
        assert old(DequeOk(v));
        forall i | 0 <= i < |items[v]| ensures SlotOk(v, i) { assert old(SlotOk(v, i)); }
      }
    }

    /** `deque_steal`: the oldest task. */
    method Steal(w: nat) returns (task: Task?)
      requires Valid() && w < |items|
      modifies this, top, len
      ensures Valid() && (task == null <==> old(items)[w] == [])
      ensures task == null ==> items == old(items)
      ensures task != null ==> task == old(items)[w][0] && items == old(items)[w := old(items)[w][1..]]
    {
      assert DequeOk(w);
      var t, b := top[w], bottom[w];
      if t >= b { return null; }
      assert SlotOk(w, 0);
      task := slots[w, Slot(t)];
      top[w] := t + 1;
      len[w] := len[w] - 1;
      total := total - 1;
      SizesUpdate(items, w, items[w][1..]);
      items := items[w := items[w][1..]];
      forall v | 0 <= v < |items| ensures DequeOk(v) {
        assert old(DequeOk(v));
        forall i | 0 <= i < |items[v]| ensures SlotOk(v, i) {
          assert old(SlotOk(v, if v == w then i + 1 else i));
        }
      }
    }

    constructor (workers: nat)
      ensures Valid() && |items| == workers && (forall w :: 0 <= w < workers ==> items[w] == [])
      ensures fresh(slots) && fresh(top) && fresh(bottom) && fresh(len)
    {
      slots := new Task?[workers, DEQUE_CAPACITY]((_, _) => null);
      top := new nat[workers](_ => 0);
      bottom := new nat[workers](_ => 0);
      len := new int[workers](_ => 0);
      total := 0;
      items := seq(workers, _ => []);
      new;
      SizesOfNone(workers);
    }
  }

  lemma {:induction false} SizesOfNone(n: nat)
    ensures Sizes<Task>(seq(n, _ => [])) == 0
  {
    if n > 0 {
      SizesOfNone(n - 1);
      assert seq(n, _ => [])[..n - 1] == seq<seq<Task>>(n - 1, _ => []);
    }
  }

  // ---------------------------------------------------------------- the full steal scan

  function Victim(idx: nat, v: nat, workers: nat): nat
    requires workers > 0
  {
    (idx + 1 + v) % workers
  }

  lemma Wrap(x: nat, n: nat)
    requires n > 0 && x < 2 * n
    ensures x % n == if x < n then x else x - n
  {
    if x >= n { assert x / n == 1; }
  }

  /** The v that makes the scan of worker idx visit worker u. */
  function Turn(idx: nat, u: nat, workers: nat): nat
    requires idx < workers && u < workers && u != idx
  {
    if u > idx then u - idx - 1 else u + workers - idx - 1
  }

  /** The full scan visits every other worker exactly once. */
  lemma ScanVisitsEachOnce(idx: nat, workers: nat)
    requires idx < workers
    ensures forall v :: 0 <= v < workers - 1 ==> Victim(idx, v, workers) < workers && Victim(idx, v, workers) != idx
    ensures forall u :: 0 <= u < workers && u != idx ==>
              0 <= Turn(idx, u, workers) < workers - 1 && Victim(idx, Turn(idx, u, workers), workers) == u
    ensures forall v, v' :: 0 <= v < v' < workers - 1 ==> Victim(idx, v, workers) != Victim(idx, v', workers)
  {
    forall v | 0 <= v < workers
      ensures Victim(idx, v, workers) == if idx + 1 + v < workers then idx + 1 + v else idx + 1 + v - workers {
      Wrap(idx + 1 + v, workers);
    }
  }

  /** The first worker with something to steal, in the order of the scan. */
  ghost predicate FirstVictim(items: seq<seq<Task>>, idx: nat, from: nat)
  {
    && idx < |items| && from < |items| && from != idx && items[from] != []
    && forall u :: 0 <= u < |items| && u != idx && Turn(idx, u, |items|) < Turn(idx, from, |items|) ==> items[u] == []
  }

  /** Step 3 of the worker pass with the ring dry. */
  method StealFromAny(d: Deques, idx: nat) returns (task: Task?, ghost from: nat)
    requires d.Valid() && idx < |d.items|
    modifies d, d.top, d.len
    ensures d.Valid()
    ensures task == null ==> d.items == old(d.items) && forall u :: 0 <= u < |d.items| && u != idx ==> d.items[u] == []
    ensures task != null ==> FirstVictim(old(d.items), idx, from)
    ensures task != null ==> task == old(d.items)[from][0] && d.items == old(d.items)[from := old(d.items)[from][1..]]
  {
    var workers := d.top.Length;
    ScanVisitsEachOnce(idx, workers);
    task, from := null, 0;
    var v := 0;
    while v < workers - 1
      invariant 0 <= v && task == null && d.Valid() && d.items == old(d.items)
      invariant forall x :: 0 <= x < v ==> d.items[Victim(idx, x, workers)] == []
    {
      var victim := Victim(idx, v, workers);
      task := d.Steal(victim);
      if task != null {
        from := victim;
        forall u | 0 <= u < workers && u != idx && Turn(idx, u, workers) < Turn(idx, from, workers)
          ensures old(d.items)[u] == [] {
          assert d.items[Victim(idx, Turn(idx, u, workers), workers)] == [];
        }
        return;
      }
      v := v + 1;
    }
    forall u | 0 <= u < |d.items| && u != idx ensures d.items[u] == [] {
      assert d.items[Victim(idx, Turn(idx, u, workers), workers)] == [];
    }
  }

  // ---------------------------------------------------------------- one pass of a worker

  /** `LOOMWORKS_BULK_DEQUEUE` */
  function BatchOf(ring: seq<Task>): (batch: seq<Task>)
    ensures batch <= ring && |batch| <= BATCH && (batch == [] <==> ring == [])
  {
    if |ring| <= BATCH then ring else ring[..BATCH]
  }

  /** Step 2: a batch off the ring goes through the worker's own, empty deque.  No push is ever refused. */
  method Refill(d: Deques, idx: nat, ring: seq<Task>) returns (task: Task?, left: seq<Task>)
    requires d.Valid() && idx < |d.items| && d.items[idx] == []
    modifies d, d.slots, d.top, d.bottom, d.len
    ensures d.Valid() && left == ring[|BatchOf(ring)|..] && (task == null <==> ring == [])
    ensures task == null ==> d.items == old(d.items)
    ensures task != null ==> var n := |BatchOf(ring)|;
              task == ring[n - 1] && d.items == old(d.items)[idx := ring[..n - 1]]
  {
    var batch := BatchOf(ring);
    left := ring[|batch|..];
    for i := 0 to |batch|
      invariant d.Valid() && d.items == old(d.items)[idx := batch[..i]]
    {
      var ok := d.Push(idx, batch[i]);
      assert ok && batch[..i] + [batch[i]] == batch[..i + 1];
    }
    task := d.Pop(idx);
    assert batch[..|batch|] == batch;
    if task != null { assert batch[..|batch| - 1] == ring[..|batch| - 1]; }
  }

  /** Nothing queued anywhere. */
  ghost predicate Idle(queue: seq<Task>, ring: seq<Task>, items: seq<seq<Task>>)
  {
    queue == [] && NoneLeft(ring, items)
  }

  ghost predicate NoneLeft(ring: seq<Task>, items: seq<seq<Task>>)
  {
    ring == [] && forall u :: 0 <= u < |items| ==> items[u] == []
  }

  /** What steps 1 to 3 take, and what they leave: the newest of the own deque; else the newest of a batch off the
      ring, whose rest fills the own deque; else the oldest of the first victim. */
  ghost predicate DequeChoice(ring: seq<Task>, items: seq<seq<Task>>, idx: nat,
                          task: Task?, left: seq<Task>, items': seq<seq<Task>>)
    requires idx < |items|
  {
    var own, n := items[idx], |BatchOf(ring)|;
    if own != [] then task == own[|own| - 1] && items' == items[idx := own[..|own| - 1]] && left == ring
    else if ring != [] then task == ring[n - 1] && items' == items[idx := ring[..n - 1]] && left == ring[n..]
    else exists from: nat ::
      FirstVictim(items, idx, from) && task == items[from][0]
        && items' == items[from := items[from][1..]] && left == ring
  }

  /** Steps 1 to 3.  The ring is dry when the steal scan begins, so the scan is the full one. */
  method FromDeques(d: Deques, ring: seq<Task>, idx: nat) returns (task: Task?, left: seq<Task>)
    requires d.Valid() && idx < |d.items|
    modifies d, d.slots, d.top, d.bottom, d.len
    ensures d.Valid()
    ensures task == null <==> NoneLeft(ring, old(d.items))
    ensures task == null ==> left == ring && d.items == old(d.items)
    ensures task != null ==> DequeChoice(ring, old(d.items), idx, task, left, d.items)
  {
    left := ring;
    task := d.Pop(idx);
    if task != null { return; }
    task, left := Refill(d, idx, ring);
    if task != null { return; }
    ghost var from;
    task, from := StealFromAny(d, idx);
  }

  ghost predicate Urgent(queue: seq<Task>)
  {
    exists t :: t in queue && t.priority <= 4
  }

  /** The scan of `worker_entry` (steps 0 to 4) with nobody submitting meanwhile.  `ring` is the run of
      published tasks at the ring's head. */
  method Pass(lanes: LaneSet, d: Deques, ring: seq<Task>, idx: nat) returns (task: Task?, left: seq<Task>)
    requires lanes.Valid() && d.Valid() && idx < |d.items|
    modifies lanes, lanes.head, lanes.tail, lanes.bits, lanes.nodes, d, d.slots, d.top, d.bottom, d.len
    ensures lanes.Valid() && d.Valid()
    // it finds nothing exactly when there is nothing
    ensures task == null <==> Idle(old(lanes.queue), ring, old(d.items))
    // urgent lane tasks go first, the other lanes last; either way the foremost task, and nothing else moves
    ensures task != null && (Urgent(old(lanes.queue)) || NoneLeft(ring, old(d.items))) ==>
              && Foremost(old(lanes.queue), Any, task) && lanes.queue == Without(old(lanes.queue), task)
              && left == ring && d.items == old(d.items)
    ensures task != null && !Urgent(old(lanes.queue)) && !NoneLeft(ring, old(d.items)) ==>
              DequeChoice(ring, old(d.items), idx, task, left, d.items) && lanes.queue == old(lanes.queue)
  {
    left := ring;
    task := null;
    var urgent := lanes.HasPriority(4);
    if urgent { task := lanes.Dequeue(4); return; }
    task, left := FromDeques(d, ring, idx);
    if task != null { return; }
    assert lanes.queue != [] ==> lanes.queue[0] in lanes.queue;
    task := lanes.Dequeue(255);
  }
}
