/** The pool's timer heap: an array-backed binary min-heap on deadlines, changed in place. */
module TimerHeap {

  datatype Entry = Entry(deadline: int, taskId: nat, worker: nat, coro: nat)

  function Parent(i: nat): (p: nat)
    requires i > 0
    ensures p < i
  {
    (i - 1) / 2
  }

  predicate ParentOk(h: seq<Entry>, j: nat)
    requires 0 < j < |h|
  {
    h[Parent(j)].deadline <= h[j].deadline
  }

  /** Heap order on the first n slots. */
  ghost predicate Ordered(h: seq<Entry>, n: nat)
    requires n <= |h|
  {
    forall j {:trigger ParentOk(h, j)} :: 0 < j < n ==> ParentOk(h, j)
  }

  lemma {:induction false} RootIsLeast(h: seq<Entry>, n: nat, j: nat)
    requires j < n <= |h| && Ordered(h, n)
    ensures h[0].deadline <= h[j].deadline
  {
    if j > 0 {
      assert ParentOk(h, j);
      RootIsLeast(h, n, Parent(j));
    }
  }

  function Swap(h: seq<Entry>, i: nat, j: nat): (h': seq<Entry>)
    requires i < |h| && j < |h|
    ensures |h'| == |h|
  {
    h[i := h[j]][j := h[i]]
  }

  lemma SwapSame(h: seq<Entry>, n: nat, i: nat, j: nat)
    requires i < j < n <= |h|
    ensures multiset(Swap(h, i, j)[..n]) == multiset(h[..n])
    ensures Swap(h, i, j)[n..] == h[n..]
  {
    var x, y := [h[i]], [h[j]];
    var a, b, c := h[..i], h[i + 1..j], h[j + 1..n];
    assert h[..n] == a + x + b + y + c;
    assert Swap(h, i, j)[..n] == a + y + b + x + c;
  }

  // ---------------------------------------------------------------- sift up

  function SiftedUp(h: seq<Entry>, i: nat): (h': seq<Entry>)
    requires i < |h|
    ensures |h'| == |h|
    decreases i
  {
    if i == 0 || ParentOk(h, i) then h else SiftedUp(Swap(h, i, Parent(i)), Parent(i))
  }

  predicate GrandparentOk(h: seq<Entry>, i: nat, c: nat)
    requires i < |h| && 0 < c < |h|
  {
    i > 0 && Parent(c) == i ==> h[Parent(i)].deadline <= h[c].deadline
  }

  /** Heap order except between i and its parent; the children of i respect the grandparent. */
  ghost predicate OrderedButUp(h: seq<Entry>, n: nat, i: nat)
    requires n <= |h| && i < |h|
  {
    && (forall j {:trigger ParentOk(h, j)} :: 0 < j < n && j != i ==> ParentOk(h, j))
    && (forall c {:trigger GrandparentOk(h, i, c)} :: 0 < c < n ==> GrandparentOk(h, i, c))
  }

  lemma SwapUp(h: seq<Entry>, n: nat, i: nat)
    requires 0 < i < n <= |h| && OrderedButUp(h, n, i) && !ParentOk(h, i)
    ensures OrderedButUp(Swap(h, i, Parent(i)), n, Parent(i))
  {
    var p := Parent(i);
    var h' := Swap(h, i, p);
    forall j | 0 < j < n && j != p ensures ParentOk(h', j) {
      assert j != i ==> ParentOk(h, j);
      assert GrandparentOk(h, i, j);
    }
    forall c | 0 < c < n ensures GrandparentOk(h', p, c) {
      assert c != i ==> ParentOk(h, c);
      if p > 0 { assert ParentOk(h, p); }
    }
  }

  lemma {:induction false} SiftUpOrders(h: seq<Entry>, n: nat, i: nat)
    requires i < n <= |h| && OrderedButUp(h, n, i)
    ensures Ordered(SiftedUp(h, i), n)
    ensures multiset(SiftedUp(h, i)[..n]) == multiset(h[..n])
    decreases i
  {
    if i > 0 && !ParentOk(h, i) {
      SwapUp(h, n, i);
      SwapSame(h, n, Parent(i), i);
      assert Swap(h, i, Parent(i)) == Swap(h, Parent(i), i);
      SiftUpOrders(Swap(h, i, Parent(i)), n, Parent(i));
    }
  }

  // ---------------------------------------------------------------- sift down

  /** Of i and its children below n, the one with the least deadline, as the two comparisons find it. */
  function LeastChild(h: seq<Entry>, n: nat, i: nat): (m: nat)
    requires i < |h| && n <= |h|
    ensures m == i || (i < m < n && Parent(m) == i && h[m].deadline < h[i].deadline)
    ensures forall c :: 0 < c < n && Parent(c) == i ==> h[m].deadline <= h[c].deadline
  {
    var l, r := 2 * i + 1, 2 * i + 2;
    var m := if l < n && h[l].deadline < h[i].deadline then l else i;
    if r < n && h[r].deadline < h[m].deadline then r else m
  }

  function SiftedDown(h: seq<Entry>, n: nat, i: nat): (h': seq<Entry>)
    requires i < |h| && n <= |h|
    ensures |h'| == |h|
    decreases n - i
  {
    var m := LeastChild(h, n, i);
    if m == i then h else SiftedDown(Swap(h, i, m), n, m)
  }

  /** Slots above i stay, and i gets the least of itself and its children. */
  lemma {:induction false} SiftDownFrame(h: seq<Entry>, n: nat, i: nat)
    requires i < |h| && n <= |h|
    ensures var h' := SiftedDown(h, n, i);
            h'[i] == h[LeastChild(h, n, i)] && forall k :: 0 <= k < i ==> h'[k] == h[k]
    decreases n - i
  {
    var m := LeastChild(h, n, i);
    if m != i { SiftDownFrame(Swap(h, i, m), n, m); }
  }

  /** Heap order except around i; the children of i respect the grandparent. */
  ghost predicate OrderedButAt(h: seq<Entry>, n: nat, i: nat)
    requires n <= |h| && i < |h|
  {
    && (forall j {:trigger ParentOk(h, j)} :: 0 < j < n && j != i && Parent(j) != i ==> ParentOk(h, j))
    && (forall c {:trigger GrandparentOk(h, i, c)} :: 0 < c < n ==> GrandparentOk(h, i, c))
  }

  lemma SwapDown(h: seq<Entry>, n: nat, i: nat, m: nat)
    requires i < n <= |h| && OrderedButAt(h, n, i) && m == LeastChild(h, n, i) && m != i
    ensures OrderedButAt(Swap(h, i, m), n, m)
  {
    var h' := Swap(h, i, m);
    forall j | 0 < j < n && j != m && Parent(j) != m ensures ParentOk(h', j) {
      if j == i { assert GrandparentOk(h, i, m); }
      else if Parent(j) != i { assert ParentOk(h, j); }
    }
    forall c | 0 < c < n ensures GrandparentOk(h', m, c) {
      if Parent(c) == m { assert ParentOk(h, c); }
    }
  }

  /** Sifting down leaves at most the bond between i and its parent to repair. */
  lemma {:induction false} SiftDownOrders(h: seq<Entry>, n: nat, i: nat)
    requires i < n <= |h| && OrderedButAt(h, n, i)
    ensures OrderedButUp(SiftedDown(h, n, i), n, i)
    ensures multiset(SiftedDown(h, n, i)[..n]) == multiset(h[..n])
    decreases n - i
  {
    var m := LeastChild(h, n, i);
    var h' := SiftedDown(h, n, i);
    if m == i {
      forall j | 0 < j < n && j != i ensures ParentOk(h, j) {}
    } else {
      var g := Swap(h, i, m);
      SwapSame(h, n, i, m);
      SwapDown(h, n, i, m);
      SiftDownOrders(g, n, m);
      assert h' == SiftedDown(g, n, m);
      SettledAt(h, n, i, m);
      SiftDownFrame(h, n, i);
      forall c | 0 < c < n ensures GrandparentOk(h', i, c) {
        if i > 0 && Parent(c) == i {
          assert ParentOk(h', c);
          assert GrandparentOk(h, i, m);
        }
      }
    }
  }

  lemma SettledAt(h: seq<Entry>, n: nat, i: nat, m: nat)
    requires i < n <= |h| && OrderedButAt(h, n, i) && m == LeastChild(h, n, i) && m != i
    ensures ParentOk(SiftedDown(Swap(h, i, m), n, m), m)
    ensures SiftedDown(Swap(h, i, m), n, m)[i] == h[m]
  {
    var g := Swap(h, i, m);
    SiftDownFrame(g, n, m);
    var c := LeastChild(g, n, m);
    if c != m { assert ParentOk(h, c); }
  }

  // ---------------------------------------------------------------- the two arrays the operations leave

  lemma PushOrders(h: seq<Entry>, n: nat, e: Entry)
    requires n < |h| && Ordered(h, n)
    ensures var h' := SiftedUp(h[n := e], n);
            Ordered(h', n + 1) && multiset(h'[..n + 1]) == multiset(h[..n]) + multiset{e}
  {
    var g := h[n := e];
    forall j | 0 < j < n + 1 && j != n ensures ParentOk(g, j) { assert ParentOk(h, j); }
    SiftUpOrders(g, n + 1, n);
    assert g[..n + 1] == h[..n] + [e];
  }

  /** Overwriting slot i by the last entry takes exactly the i-th entry out. */
  lemma OverwriteTakesOut(h: seq<Entry>, n: nat, i: nat)
    requires i <= n < |h|
    ensures multiset(h[i := h[n]][..n]) == multiset(h[..n + 1]) - multiset{h[i]}
  {
    var g := h[i := h[n]];
    assert h[..n + 1] == h[..n] + [h[n]];
    if i < n {
      assert h[..n] == h[..i] + [h[i]] + h[i + 1..n];
      assert g[..n] == h[..i] + [h[n]] + h[i + 1..n];
    } else {
      assert g[..n] == h[..n];
    }
  }

  lemma OverwriteLoosens(h: seq<Entry>, n: nat, i: nat)
    requires i < n < |h| && Ordered(h, n + 1)
    ensures OrderedButAt(h[i := h[n]], n, i)
  {
    var g := h[i := h[n]];
    forall j | 0 < j < n && j != i && Parent(j) != i ensures ParentOk(g, j) { assert ParentOk(h, j); }
    forall c | 0 < c < n ensures GrandparentOk(g, i, c) {
      if i > 0 && Parent(c) == i { assert ParentOk(h, c) && ParentOk(h, i); }
    }
  }

  /** What remove leaves: sift down, then up, from the overwritten slot, which may be the slot just past
      the new end. */
  function Removed(h: seq<Entry>, n: nat, i: nat): (h': seq<Entry>)
    requires i <= n < |h|
    ensures |h'| == |h|
  {
    SiftedUp(SiftedDown(h[i := h[n]], n, i), i)
  }

  lemma RemoveOrders(h: seq<Entry>, n: nat, i: nat)
    requires i <= n < |h| && Ordered(h, n + 1)
    ensures Ordered(Removed(h, n, i), n)
    ensures multiset(Removed(h, n, i)[..n]) == multiset(h[..n + 1]) - multiset{h[i]}
  {
    OverwriteTakesOut(h, n, i);
    var g := h[i := h[n]];
    if i < n {
      OverwriteLoosens(h, n, i);
      SiftDownOrders(g, n, i);
      SiftUpOrders(SiftedDown(g, n, i), n, i);
    } else {
      LastSlotStays(h, n);
      forall j | 0 < j < n ensures ParentOk(h, j) {}
    }
  }

  /** Removing the last slot: both sifts leave the array alone, so the removed entry does not come back. */
  lemma LastSlotStays(h: seq<Entry>, n: nat)
    requires n < |h| && Ordered(h, n + 1)
    ensures Removed(h, n, n) == h
  {
    assert h[n := h[n]] == h;
    if n > 0 { assert ParentOk(h, n); }
  }

  // ---------------------------------------------------------------- the code

  method Exchange(h: array<Entry>, i: nat, j: nat)
    requires i < h.Length && j < h.Length
    modifies h
    ensures h[..] == Swap(old(h[..]), i, j)
  {
    var t := h[j];
    h[j] := h[i];
    h[i] := t;
  }

  method SiftUp(h: array<Entry>, i0: nat)
    requires i0 < h.Length
    modifies h
    ensures h[..] == SiftedUp(old(h[..]), i0)
  {
    var i: nat := i0;
    while i > 0
      invariant i < h.Length
      invariant SiftedUp(h[..], i) == SiftedUp(old(h[..]), i0)
    {
      var p := (i - 1) / 2;
      if h[p].deadline <= h[i].deadline { break; }
      Exchange(h, i, p);
      i := p;
    }
  }

  method ChildToTake(h: array<Entry>, n: nat, i: nat) returns (m: nat)
    requires i < h.Length && n <= h.Length
    ensures m == LeastChild(h[..], n, i)
  {
    var l, r := 2 * i + 1, 2 * i + 2;
    m := i;
    if l < n && h[l].deadline < h[m].deadline { m := l; }
    if r < n && h[r].deadline < h[m].deadline { m := r; }
  }

  method SiftDown(h: array<Entry>, n: nat, i0: nat)
    requires i0 < h.Length && n <= h.Length
    modifies h
    ensures h[..] == SiftedDown(old(h[..]), n, i0)
  {
    var i := i0;
    while true
      invariant i < h.Length
      invariant SiftedDown(h[..], n, i) == SiftedDown(old(h[..]), n, i0)
      decreases n - i
    {
      var m := ChildToTake(h, n, i);
      if m == i { break; }
      Exchange(h, i, m);
      i := m;
    }
  }

  method Overwrite(h: array<Entry>, i: nat, e: Entry)
    requires i < h.Length
    modifies h
    ensures h[..] == old(h[..])[i := e]
  {
    h[i] := e;
  }

  /** Slot i takes the entry of slot n, the new length, and is sifted both ways. */
  method TakeOut(h: array<Entry>, n: nat, i: nat)
    requires i <= n < h.Length
    modifies h
    ensures h[..] == Removed(old(h[..]), n, i)
  {
    Overwrite(h, i, h[n]);
    if n > 0 {
      SiftDown(h, n, i);
      SiftUp(h, i);
    }
  }

  class Timers {
    /** `timer_heap` with its capacity, and `timer_len`. */
    var heap: array<Entry>
    var len: nat

    ghost predicate Valid()
      reads this, heap
    {
      len <= heap.Length && Ordered(heap[..], len)
    }

    ghost function Sleeping(): multiset<Entry>
      requires Valid()
      reads this, heap
    {
      multiset(heap[..][..len])
    }

    constructor ()
      ensures Valid() && fresh(heap) && len == 0 && heap.Length == 0
    {
      heap := new Entry[0];
      len := 0;
    }

    /** The reallocation of a full heap: 64 slots first, then twice as many; the entries move along. */
    method Grow()
      requires Valid() && len == heap.Length
      modifies this
      ensures Valid() && fresh(heap) && len == old(len)
      ensures heap.Length == (if old(heap.Length) == 0 then 64 else 2 * old(heap.Length))
      ensures heap[..][..len] == old(heap[..][..len])
    {
      var bigger := new Entry[if heap.Length == 0 then 64 else 2 * heap.Length](_ => Entry(0, 0, 0, 0));
      for i := 0 to len
        modifies bigger
        invariant bigger[..i] == heap[..i]
      {
        bigger[i] := heap[i];
      }
      ghost var before := heap[..];
      heap := bigger;
      assert heap[..][..len] == before[..len];
      forall j | 0 < j < len ensures ParentOk(heap[..], j) { assert ParentOk(before, j); }
    }

    /** `loom_timer_push`: fails only when the heap is full and cannot grow, and then changes nothing. */
    method Push(e: Entry, allocOk: bool) returns (ok: bool)
      requires Valid()
      modifies this, heap
      ensures Valid() && if old(len) < old(heap.Length) then heap == old(heap) else heap == old(heap) || fresh(heap)
      ensures ok <==> old(len) < old(heap.Length) || allocOk
      ensures ok ==> len == old(len) + 1 && Sleeping() == old(Sleeping()) + multiset{e}
      ensures !ok ==> len == old(len) && heap == old(heap) && heap[..] == old(heap[..])
    {
      if len == heap.Length {
        if !allocOk { return false; }
        Grow();
      }
      PushOrders(heap[..], len, e);
      Overwrite(heap, len, e);
      SiftUp(heap, len);
      len := len + 1;
      return true;
    }

    /** `loom_timer_peek` */
    method Peek() returns (some: bool, deadline: int)
      requires Valid()
      ensures (some <==> len > 0) && (!some ==> Sleeping() == multiset{})
      ensures some ==> (exists e :: e in Sleeping() && e.deadline == deadline)
      ensures some ==> forall e :: e in Sleeping() ==> deadline <= e.deadline
    {
      if len == 0 { return false, 0; }
      assert heap[..][..len][0] in Sleeping();
      forall e | e in Sleeping() ensures heap[0].deadline <= e.deadline {
        var j :| 0 <= j < len && heap[..][j] == e;
        RootIsLeast(heap[..], len, j);
      }
      return true, heap[0].deadline;
    }

    /** `loom_timer_pop_due`: takes out one entry with the least deadline; the capacity stays. */
    method PopDue() returns (some: bool, e: Entry)
      requires Valid()
      modifies this, heap
      ensures Valid() && heap == old(heap)
      ensures some <==> old(len) > 0
      ensures !some ==> len == old(len) && heap[..] == old(heap[..])
      ensures some ==> len == old(len) - 1 && e in old(Sleeping()) && Sleeping() == old(Sleeping()) - multiset{e}
      ensures some ==> forall x :: x in old(Sleeping()) ==> e.deadline <= x.deadline
    {
      if len == 0 { return false, Entry(0, 0, 0, 0); }
      ghost var before := heap[..];
      e := heap[0];
      forall x | x in Sleeping() ensures e.deadline <= x.deadline {
        var j :| 0 <= j < len && before[j] == x;
        RootIsLeast(before, len, j);
      }
      assert before[..len][0] in multiset(before[..len]);
      len := len - 1;
      Overwrite(heap, 0, heap[len]);
      RemoveOrders(before, len, 0);
      if len > 0 { SiftDown(heap, len, 0); }
      assert heap[..] == Removed(before, len, 0);
      return true, e;
    }

    /** The slot of the first entry of that task, or `len`. */
    method SlotOf(id: nat) returns (i: nat)
      requires Valid()
      ensures i <= len
      ensures i < len ==> heap[i].taskId == id
      ensures forall k :: 0 <= k < i ==> heap[k].taskId != id
    {
      i := 0;
      while i < len && heap[i].taskId != id
        invariant i <= len && forall k :: 0 <= k < i ==> heap[k].taskId != id
      {
        i := i + 1;
      }
    }

    method RemoveAt(i: nat) returns (e: Entry)
      requires Valid() && i < len
      modifies this, heap
      ensures Valid() && heap == old(heap) && len == old(len) - 1
      ensures e == old(heap[i]) && Sleeping() == old(Sleeping()) - multiset{e}
    {
      e := heap[i];
      len := len - 1;
      RemoveOrders(heap[..], len, i);
      TakeOut(heap, len, i);
    }

    /** `loom_timer_remove_by_task`: takes out the first entry of that task, if there is one. */
    method RemoveByTask(id: nat) returns (some: bool, e: Entry)
      requires Valid()
      modifies this, heap
      ensures Valid() && heap == old(heap)
      ensures some <==> exists x :: x in old(Sleeping()) && x.taskId == id
      ensures !some ==> len == old(len) && heap[..] == old(heap[..])
      ensures some ==> e.taskId == id && e in old(Sleeping())
      ensures some ==> len == old(len) - 1 && Sleeping() == old(Sleeping()) - multiset{e}
    {
      var i := SlotOf(id);
      if i < len {
        assert heap[..][..len][i] in Sleeping();
        e := RemoveAt(i);
        return true, e;
      }
      forall x | x in Sleeping() ensures x.taskId != id {
        var k :| 0 <= k < len && heap[..][..len][k] == x;
      }
      return false, Entry(0, 0, 0, 0);
    }
  }

  // ---------------------------------------------------------------- the timer thread's drain

  datatype Due = NothingDue | NoNode | Took(e: Entry)

  /** One critical section of the drain loop.  Without a ready node the popped entry is pushed back,
      which needs no allocation because the pop has just made room. */
  method TakeDue(timers: Timers, now: int, node: bool) returns (due: Due)
    requires timers.Valid()
    modifies timers, timers.heap
    ensures timers.Valid() && timers.heap == old(timers.heap)
    ensures due.NothingDue? <==> forall x :: x in old(timers.Sleeping()) ==> now < x.deadline
    ensures due.Took? ==> node && due.e in old(timers.Sleeping()) && due.e.deadline <= now
    ensures due.Took? ==> forall x :: x in old(timers.Sleeping()) ==> due.e.deadline <= x.deadline
    ensures due.Took? ==> timers.Sleeping() == old(timers.Sleeping()) - multiset{due.e} && timers.len < old(timers.len)
    ensures !due.Took? ==> timers.Sleeping() == old(timers.Sleeping())
    ensures due.NoNode? ==> !node
  {
    var some, deadline := timers.Peek();
    if !some || deadline > now { return NothingDue; }
    ghost var all := timers.Sleeping();
    var popped, e := timers.PopDue();
    if !node {
      assert all - multiset{e} + multiset{e} == all;
      var pushed := timers.Push(e, false);
      return NoNode;
    }
    return Took(e);
  }

  predicate Rising(out: seq<Entry>)
  {
    forall i, j :: 0 <= i < j < |out| ==> out[i].deadline <= out[j].deadline
  }

  /** `out` was taken off `all` in order of deadline, all of it due, and `left` is the rest. */
  ghost predicate Drained(all: multiset<Entry>, out: seq<Entry>, left: multiset<Entry>, now: int)
  {
    && multiset(out) + left == all
    && Rising(out)
    && (forall e :: e in out ==> e.deadline <= now)
    && (forall e, x :: e in out && x in left ==> e.deadline <= x.deadline)
  }

  lemma DrainOne(all: multiset<Entry>, out: seq<Entry>, left: multiset<Entry>, now: int, e: Entry)
    requires Drained(all, out, left, now) && e in left && e.deadline <= now
    requires forall x :: x in left ==> e.deadline <= x.deadline
    ensures Drained(all, out + [e], left - multiset{e}, now)
  {
    assert multiset(out + [e]) == multiset(out) + multiset{e};
    forall i, j | 0 <= i < j < |out + [e]| ensures (out + [e])[i].deadline <= (out + [e])[j].deadline {
      assert out[i] in out;
    }
  }

  /** `timer_thread_fn`'s inner loop without interference; `nodes` ready nodes can be allocated. */
  method DrainDue(timers: Timers, now: int, nodes: nat) returns (out: seq<Entry>, retry: bool)
    requires timers.Valid()
    modifies timers, timers.heap
    ensures timers.Valid() && timers.heap == old(timers.heap)
    ensures Drained(old(timers.Sleeping()), out, timers.Sleeping(), now)
    ensures !retry <==> forall x :: x in timers.Sleeping() ==> now < x.deadline
    ensures retry ==> |out| == nodes
  {
    out := [];
    ghost var all := timers.Sleeping();
    while true
      invariant timers.Valid() && timers.heap == old(timers.heap)
      invariant |out| <= nodes && Drained(all, out, timers.Sleeping(), now)
      decreases timers.len
    {
      ghost var left := timers.Sleeping();
      var due := TakeDue(timers, now, |out| < nodes);
      if !due.Took? { return out, due.NoNode?; }
      DrainOne(all, out, left, now, due.e);
      out := out + [due.e];
    }
  }
}
