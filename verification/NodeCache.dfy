/** Per-thread caches of task nodes over the node stacks of several pools.  A batch pop or push of a
    pool's stack is taken as atomic (the stack itself is the subject of `NodeStack`); every pool is registered
    under an id that is not 0 and never used again. */
module NodeCache {
  import opened Collections

  /** Slot `slot` of the node array of pool `pool`. */
  datatype Node = Node(pool: nat, slot: nat)

  datatype Cell = Empty | Holds(node: Node)

  /** Where a registered pool's node is: on the stack, in a cell of a thread's cache, in use, given up, or in the
      local batch of a running call. */
  datatype Status = Free | Cached(i: nat, k: nat) | Live | Discarded | Loose

  /** What `task_create` returns: a node of a pool, a node of the allocator's, or nothing. */
  datatype Created = Pooled(node: Node) | Malloced | NoMemory

  /** The registered nodes of a batch. */
  ghost predicate AllLoose(batch: seq<Node>, status: map<Node, Status>)
  {
    && (forall a, b :: 0 <= a < b < |batch| && batch[a] in status ==> batch[a] != batch[b])
    && (forall a :: 0 <= a < |batch| && batch[a] in status ==> status[batch[a]].Loose?)
    && (forall node :: node in status && status[node].Loose? ==> node in batch)
  }

  /** Some loose nodes became `what`; nothing else changed. */
  ghost predicate Turned(before: map<Node, Status>, after: map<Node, Status>, what: Status)
  {
    && after.Keys == before.Keys
    && forall x :: x in after ==> after[x] == before[x] || (before[x].Loose? && after[x] == what)
  }

  lemma TurnedOne(before: map<Node, Status>, after: map<Node, Status>, what: Status, node: Node,
                  batch: seq<Node>, k: nat)
    requires Turned(before, after, what) && k < |batch| && batch[k] == node && AllLoose(batch[..k + 1], after)
    requires node in after && !what.Loose?
    ensures Turned(before, after[node := what], what) && AllLoose(batch[..k], after[node := what])
  {
    var now := after[node := what];
    assert now.Keys == after.Keys;
    assert batch[..k + 1] == batch[..k] + [node];
    forall x | x in now ensures now[x] == before[x] || (before[x].Loose? && now[x] == what) {}
    forall x | x in now && now[x].Loose? ensures x in batch[..k] { assert x in batch[..k + 1]; }
  }

  lemma NotKept(status: map<Node, Status>, batch: seq<Node>, k: nat)
    requires k < |batch| && AllLoose(batch[..k + 1], status) && batch[k] !in status
    ensures AllLoose(batch[..k], status)
  {
    assert batch[..k + 1] == batch[..k] + [batch[k]];
  }

  /** Every node of the batch is one of pool o. */
  ghost predicate Belong(batch: seq<Node>, o: nat)
  {
    forall a :: 0 <= a < |batch| ==> batch[a].pool == o > 0
  }

  lemma BelongMore(batch: seq<Node>, node: Node, o: nat)
    requires Belong(batch, o) && node.pool == o > 0
    ensures Belong(batch + [node], o)
  {
  }

  class Caches {
    /** `g_tls_nodes`, `g_tls_owner_id` and `g_tls_next` of every thread. */
    const cells: array2<Cell>
    const owner: array<nat>
    const next: array<nat>
    /** The free slots of every registered pool, top of the stack first; and the next id to give out. */
    var free: map<nat, seq<nat>>
    var nextId: nat
    ghost var status: map<Node, Status>

    function Threads(): nat { cells.Length0 }
    function Width(): nat { cells.Length1 }

    ghost predicate Shape()
    {
      owner.Length == cells.Length0 && next.Length == cells.Length0 && owner != next && cells.Length1 > 0
    }

    /** A cached node belongs to the pool that the thread's owner id names. */
    ghost predicate CellOk(i: nat, k: nat)
      requires Shape() && i < Threads() && k < Width()
      reads `status, `free, cells, owner
    {
      match cells[i, k]
      case Empty => true
      case Holds(node) =>
        && node.pool == owner[i] && node.pool > 0
        && (node.pool in free ==> node in status && status[node] == Cached(i, k))
    }

    /** A node is where its status says. */
    ghost predicate NodeOk(node: Node)
      requires Shape() && node in status
      reads `status, `free, cells
    {
      && node.pool in free
      && match status[node]
         case Free => node.slot in free[node.pool]
         case Cached(i, k) => i < Threads() && k < Width() && cells[i, k] == Holds(node)
         case _ => true
    }

    ghost predicate StackOk(p: nat)
      requires p in free
      reads `status, `free, `nextId
    {
      && 0 < p < nextId && Distinct(free[p])
      && forall k :: 0 <= k < |free[p]| ==> Node(p, free[p][k]) in status && status[Node(p, free[p][k])] == Free
    }

    ghost predicate Valid()
      reads this, cells, owner, next
    {
      && Shape() && nextId > 0 && (forall i :: 0 <= i < Threads() ==> next[i] < Width() && owner[i] < nextId)
      && (forall i, k {:trigger CellOk(i, k)} :: 0 <= i < Threads() && 0 <= k < Width() ==> CellOk(i, k))
      && (forall node {:trigger NodeOk(node)} :: node in status ==> NodeOk(node))
      && (forall p {:trigger StackOk(p)} :: p in free ==> StackOk(p))
    }

    /** No call is in progress: every node is free, cached, live or discarded. */
    ghost predicate Quiet()
      reads `status
    {
      forall node :: node in status ==> !status[node].Loose?
    }

    ghost predicate RowEmpty(i: nat)
      requires i < Threads()
      reads cells
    {
      forall k :: 0 <= k < Width() ==> cells[i, k] == Empty
    }

    constructor (threads: nat, width: nat)
      requires width > 0
      ensures Valid() && Quiet() && Threads() == threads && Width() == width && free == map[] && status == map[]
      ensures fresh(cells) && fresh(owner) && fresh(next)
    {
      cells := new Cell[threads, width]((_, _) => Empty);
      owner := new nat[threads](_ => 0);
      next := new nat[threads](_ => 0);
      free, nextId, status := map[], 1, map[];
    }

    /** A registered pool's node is on its stack exactly if it is free, and in a cell exactly if it is cached there. */
    lemma InOnePlace(node: Node)
      requires Valid() && node in status
      ensures node.pool in free && Distinct(free[node.pool])
      ensures node.slot in free[node.pool] <==> status[node] == Free
      ensures forall i, k :: 0 <= i < Threads() && 0 <= k < Width() ==>
                (cells[i, k] == Holds(node) <==> status[node] == Cached(i, k))
    {
      assert NodeOk(node) && StackOk(node.pool);
      forall i, k | 0 <= i < Threads() && 0 <= k < Width()
        ensures cells[i, k] == Holds(node) <==> status[node] == Cached(i, k)
      {
        assert CellOk(i, k);
      }
    }

    /** Whatever a thread has cached belongs to the pool its owner id names. */
    lemma CachedIsOwners(i: nat, k: nat)
      requires Valid() && i < Threads() && k < Width() && cells[i, k].Holds?
      ensures cells[i, k].node.pool == owner[i] > 0
    {
      assert CellOk(i, k);
    }

    // -------------------------------------------------------------- one node at a time

    /** Empty a cell into the local batch. */
    method TakeCell(i: nat, k: nat) returns (node: Node)
      requires Valid() && i < Threads() && k < Width() && cells[i, k].Holds?
      modifies `status, cells
      ensures Valid() && node == old(cells[i, k]).node && node.pool == owner[i] > 0
      ensures node in status <==> owner[i] in free
      ensures cells[i, k] == Empty && status == if owner[i] in free then old(status)[node := Loose] else old(status)
      ensures owner[i] in free ==> node in old(status) && old(status)[node] == Cached(i, k)
      ensures forall j, l :: 0 <= j < Threads() && 0 <= l < Width() && (j, l) != (i, k) ==>
                cells[j, l] == old(cells[j, l])
    {
      assert CellOk(i, k);
      node := cells[i, k].node;
      assert node in status ==> NodeOk(node);
      cells[i, k] := Empty;
      if node in status { status := status[node := Loose]; }
      forall j, l | 0 <= j < Threads() && 0 <= l < Width() ensures CellOk(j, l) { assert old(CellOk(j, l)); }
      forall x | x in status ensures NodeOk(x) { assert old(NodeOk(x)); }
      forall p | p in free ensures StackOk(p) { assert old(StackOk(p)); }
    }

    /** Put a node of the owner pool into an empty cell. */
    method PutCell(i: nat, k: nat, node: Node)
      requires Valid() && i < Threads() && k < Width() && cells[i, k] == Empty
      requires node in status && status[node] == Loose && node.pool == owner[i]
      modifies `status, cells
      ensures Valid() && cells[i, k] == Holds(node) && status == old(status)[node := Cached(i, k)]
      ensures forall j, l :: 0 <= j < Threads() && 0 <= l < Width() && (j, l) != (i, k) ==>
                cells[j, l] == old(cells[j, l])
    {
      assert NodeOk(node) && StackOk(node.pool);
      cells[i, k] := Holds(node);
      status := status[node := Cached(i, k)];
      forall j, l | 0 <= j < Threads() && 0 <= l < Width() ensures CellOk(j, l) { assert old(CellOk(j, l)); }
      forall x | x in status ensures NodeOk(x) { assert old(NodeOk(x)); }
      forall p | p in free ensures StackOk(p) { assert old(StackOk(p)); }
    }

    /** One node onto its pool's stack. */
    method PushOne(node: Node)
      requires Valid() && node in status && status[node] == Loose
      modifies `status, `free
      ensures Valid() && status == old(status)[node := Free] && free.Keys == old(free).Keys
    {
      assert NodeOk(node) && StackOk(node.pool);
      ghost var xs := free[node.pool];
      free := free[node.pool := [node.slot] + free[node.pool]];
      status := status[node := Free];
      forall j, l | 0 <= j < Threads() && 0 <= l < Width() ensures CellOk(j, l) { assert old(CellOk(j, l)); }
      forall x | x in status ensures NodeOk(x) { assert old(NodeOk(x)); }
      forall p | p in free ensures StackOk(p) {
        assert old(StackOk(p));
        if p == node.pool { assert forall k :: 0 <= k < |xs| ==> xs[k] != node.slot; }
      }
    }

    /** One node off a pool's stack. */
    method PopOne(p: nat) returns (node: Node)
      requires Valid() && p in free && free[p] != []
      modifies `status, `free
      ensures Valid() && node.pool == p && node in old(status) && old(status)[node] == Free
      ensures status == old(status)[node := Loose] && free == old(free)[p := old(free)[p][1..]]
    {
      assert StackOk(p);
      ghost var xs := free[p];
      node := Node(p, free[p][0]);
      free := free[p := free[p][1..]];
      status := status[node := Loose];
      forall j, l | 0 <= j < Threads() && 0 <= l < Width() ensures CellOk(j, l) { assert old(CellOk(j, l)); }
      forall x | x in status ensures NodeOk(x) {
        assert old(NodeOk(x));
        if x.pool == p && x != node && status[x].Free? { assert xs == [node.slot] + xs[1..]; }
      }
      forall q | q in free ensures StackOk(q) { assert old(StackOk(q)); }
    }

    /** Ghost bookkeeping for nodes that leave or enter use, or are given up. */
    ghost method Mark(node: Node, what: Status)
      requires Valid() && node in status && (status[node].Loose? || status[node].Live?)
      requires (what.Live? || what.Discarded? || what.Loose?)
      modifies `status
      ensures Valid() && status == old(status)[node := what]
    {
      status := status[node := what];
      forall j, l | 0 <= j < Threads() && 0 <= l < Width() ensures CellOk(j, l) { assert old(CellOk(j, l)); }
      forall x | x in status ensures NodeOk(x) { assert old(NodeOk(x)); }
      forall q | q in free ensures StackOk(q) { assert old(StackOk(q)); }
    }

    method SetOwner(i: nat, p: nat)
      requires Valid() && i < Threads() && p < nextId && (RowEmpty(i) || owner[i] == p)
      modifies owner
      ensures Valid() && owner[i] == p && forall j :: 0 <= j < Threads() && j != i ==> owner[j] == old(owner[j])
    {
      owner[i] := p;
      forall j, l | 0 <= j < Threads() && 0 <= l < Width() ensures CellOk(j, l) { assert old(CellOk(j, l)); }
      forall x | x in status ensures NodeOk(x) { assert old(NodeOk(x)); }
      forall q | q in free ensures StackOk(q) { assert old(StackOk(q)); }
    }

    // -------------------------------------------------------------- batches

    /** The loop that empties a thread's cache into a batch. */
    method Collect(i: nat) returns (batch: seq<Node>)
      requires Valid() && i < Threads() && Quiet()
      modifies `status, cells
      ensures Valid() && RowEmpty(i) && AllLoose(batch, status) && status.Keys == old(status).Keys
      ensures Belong(batch, owner[i])
      ensures owner[i] in free ==> forall a :: 0 <= a < |batch| ==> batch[a] in status
      ensures forall x :: x in status && !status[x].Loose? ==> status[x] == old(status)[x]
      ensures forall x :: x in status ==> (status[x].Loose? <==> old(status)[x].Cached? && old(status)[x].i == i)
      ensures forall j, l :: 0 <= j < Threads() && 0 <= l < Width() && j != i ==> cells[j, l] == old(cells[j, l])
    {
      batch := [];
      var o := owner[i];
      for k := 0 to Width()
        invariant Valid() && AllLoose(batch, status) && status.Keys == old(status).Keys
        invariant forall l :: 0 <= l < k ==> cells[i, l] == Empty
        invariant forall l :: k <= l < Width() ==> cells[i, l] == old(cells[i, l])
        invariant owner[i] == o && Belong(batch, o)
        invariant o in free ==> forall node :: node in batch ==> node in status
        invariant forall x :: x in status && !status[x].Loose? ==> status[x] == old(status)[x]
        invariant forall x :: x in status && status[x].Loose? ==> old(status)[x].Cached? && old(status)[x].i == i
        invariant forall j, l :: 0 <= j < Threads() && 0 <= l < Width() && j != i ==> cells[j, l] == old(cells[j, l])
      {
        if cells[i, k].Holds? {
          var node := TakeCell(i, k);
          BelongMore(batch, node, o);
          batch := batch + [node];
        }
      }
      forall x | x in status && status[x].Cached? ensures status[x].i != i { assert NodeOk(x); }
    }

    /** `node_stack_batch_push` of nodes that all belong to one registered pool: the batch goes on top. */
    method PushBatch(batch: seq<Node>)
      requires Valid() && AllLoose(batch, status) && forall a :: 0 <= a < |batch| ==> batch[a] in status
      modifies `status, `free
      ensures Valid() && Quiet() && free.Keys == old(free).Keys && Turned(old(status), status, Free)
    {
      var k := |batch|;
      assert batch[..k] == batch;
      while k > 0
        invariant 0 <= k <= |batch| && Valid() && AllLoose(batch[..k], status)
        invariant free.Keys == old(free).Keys && Turned(old(status), status, Free)
      {
        k := k - 1;
        TurnedOne(old(status), status, Free, batch[k], batch, k);
        assert batch[..k + 1][k] == batch[k];
        PushOne(batch[k]);
      }
    }

    /** The batch is given up without touching its nodes. */
    ghost method Discard(batch: seq<Node>)
      requires Valid() && AllLoose(batch, status)
      modifies `status
      ensures Valid() && Quiet() && Turned(old(status), status, Discarded)
    {
      var k := |batch|;
      assert batch[..k] == batch;
      while k > 0
        invariant 0 <= k <= |batch| && Valid() && AllLoose(batch[..k], status) && Turned(old(status), status, Discarded)
      {
        k := k - 1;
        if batch[k] in status {
          TurnedOne(old(status), status, Discarded, batch[k], batch, k);
          assert batch[..k + 1][k] == batch[k];
          Mark(batch[k], Discarded);
        } else {
          NotKept(status, batch, k);
        }
      }
    }

    // -------------------------------------------------------------- the operations

    lemma NoOwnerNoNodes(i: nat)
      requires Valid() && i < Threads()
      ensures owner[i] == 0 ==> RowEmpty(i) && owner[i] !in free
      ensures owner[i] !in free ==> forall x :: x in status && status[x].Cached? ==> status[x].i != i
    {
      assert 0 in free ==> StackOk(0);
      forall k | 0 <= k < Width() ensures owner[i] == 0 ==> cells[i, k] == Empty { assert CellOk(i, k); }
      forall x | x in status && status[x].Cached? ensures status[x].i == i ==> owner[i] in free {
        assert NodeOk(x);
        assert CellOk(status[x].i, status[x].k);
      }
    }

    /** `tls_resolve_owner`: the nodes of a registered owner go back to it, others are given up. */
    method Resolve(i: nat, p: nat)
      requires Valid() && Quiet() && i < Threads() && p in free
      modifies `status, `free, cells, owner
      ensures Valid() && Quiet() && owner[i] == p && free.Keys == old(free).Keys && status.Keys == old(status).Keys
      ensures forall j :: 0 <= j < Threads() && j != i ==> owner[j] == old(owner[j])
      ensures old(owner[i]) != p ==> RowEmpty(i)
      ensures forall x :: x in status ==>
                status[x] ==
                  if old(owner[i]) != p && old(status)[x].Cached? && old(status)[x].i == i then Free
                  else old(status)[x]
    {
      assert StackOk(p);
      NoOwnerNoNodes(i);
      var was := owner[i];
      if was == 0 || was == p {
        SetOwner(i, p);
        return;
      }
      var batch := Collect(i);
      if was in free {
        PushBatch(batch);
      } else {
        Discard(batch);
      }
      SetOwner(i, p);
    }

    /** The round-robin probe for a cell that is full, or empty; `false` after a whole round. */
    method ProbeCells(i: nat, full: bool) returns (found: bool, k: nat)
      requires Valid() && i < Threads()
      ensures found ==> k < Width() && cells[i, k].Holds? == full
      ensures !found ==> forall l :: 0 <= l < Width() ==> cells[i, l].Holds? != full
    {
      var width := Width();
      for probe := 0 to width
        invariant forall q :: 0 <= q < probe ==> cells[i, Round(next[i], q, width)].Holds? != full
      {
        k := Round(next[i], probe, width);
        if cells[i, k].Holds? == full { return true, k; }
      }
      forall l | 0 <= l < width ensures cells[i, l].Holds? != full { RoundHits(next[i], l, width); }
      return false, 0;
    }

    /** A batch pop of at most `want` nodes. */
    method PopBatch(p: nat, want: nat) returns (batch: seq<Node>)
      requires Valid() && Quiet() && p in free
      modifies `status, `free
      ensures Valid() && AllLoose(batch, status) && status.Keys == old(status).Keys && free.Keys == old(free).Keys
      ensures |batch| == if want <= |old(free)[p]| then want else |old(free)[p]|
      ensures forall node :: node in batch ==> node.pool == p && node in status && old(status)[node] == Free
      ensures forall x :: x in status && x !in batch ==> status[x] == old(status)[x]
    {
      batch := [];
      while |batch| < want && free[p] != []
        invariant Valid() && AllLoose(batch, status) && status.Keys == old(status).Keys && free.Keys == old(free).Keys
        invariant |batch| <= want && |batch| + |free[p]| == |old(free)[p]|
        invariant forall node :: node in batch ==> node.pool == p && node in status && old(status)[node] == Free
        invariant forall x :: x in status && x !in batch ==> status[x] == old(status)[x]
        decreases want - |batch|
      {
        var node := PopOne(p);
        batch := batch + [node];
      }
    }

    method FirstEmpty(i: nat) returns (k: nat)
      requires Valid() && i < Threads() && exists l :: 0 <= l < Width() && cells[i, l] == Empty
      ensures k < Width() && cells[i, k] == Empty && forall l :: 0 <= l < k ==> cells[i, l].Holds?
    {
      k := 0;
      while cells[i, k].Holds?
        invariant k < Width() && (forall l :: 0 <= l < k ==> cells[i, l].Holds?)
        invariant exists l :: k <= l < Width() && cells[i, l] == Empty
        decreases Width() - k
      {
        k := k + 1;
      }
    }

    /** The refill keeps the first node of the batch in use and stores the others in the cache. */
    method Stash(i: nat, batch: seq<Node>)
      requires Valid() && i < Threads() && RowEmpty(i) && 0 < |batch| <= Width() && AllLoose(batch, status)
      requires forall node :: node in batch ==> node in status && node.pool == owner[i]
      modifies `status, cells
      ensures Valid() && Quiet() && status.Keys == old(status).Keys && status[batch[0]] == Live
      ensures forall x :: x in status && x !in batch ==> status[x] == old(status)[x]
      ensures forall x :: x in batch && x != batch[0] ==> status[x].Cached? && status[x].i == i
    {
      Mark(batch[0], Live);
      for a := 1 to |batch|
        invariant Valid() && status.Keys == old(status).Keys && status[batch[0]] == Live
        invariant forall l :: a - 1 <= l < Width() ==> cells[i, l] == Empty
        invariant forall l :: 0 <= l < a - 1 ==> cells[i, l].Holds?
        invariant forall b :: 1 <= b < a ==> status[batch[b]].Cached? && status[batch[b]].i == i
        invariant forall b :: a <= b < |batch| ==> status[batch[b]] == Loose
        invariant forall x :: x in status && x !in batch ==> status[x] == old(status)[x]
      {
        assert cells[i, a - 1] == Empty;
        var k := FirstEmpty(i);
        PutCell(i, k, batch[a]);
      }
    }

    /** The node stayed put, or moved between the free stack and the cache of thread i. */
    ghost predicate InReserve(was: Status, now: Status, i: nat)
    {
      was == now || ((was.Free? || (was.Cached? && was.i == i)) && (now.Free? || (now.Cached? && now.i == i)))
    }

    /** `task_create`'s choice of a node for pool p: never another pool's, never one in use. */
    method Create(i: nat, p: nat, allocOk: bool) returns (r: Created)
      requires Valid() && Quiet() && i < Threads() && p in free
      modifies `status, `free, cells, owner, next
      ensures Valid() && Quiet() && owner[i] == p && free.Keys == old(free).Keys && status.Keys == old(status).Keys
      ensures forall j :: 0 <= j < Threads() && j != i ==> owner[j] == old(owner[j])
      ensures r.Pooled? ==> r.node.pool == p && r.node in status && status[r.node] == Live
      ensures r.Pooled? ==> old(status)[r.node].Free? || (old(status)[r.node].Cached? && old(status)[r.node].i == i)
      ensures forall x :: x in status && (old(status)[x].Live? || old(status)[x].Discarded?) ==>
                status[x] == old(status)[x]
      ensures forall x :: x in status && old(status)[x].Cached? && old(status)[x].i != i ==> status[x] == old(status)[x]
      ensures forall x :: x in status && status[x].Live? && old(status)[x] != Live ==> r == Pooled(x)
      ensures forall x :: x in status && old(status)[x] != Live && r != Pooled(x) ==>
                InReserve(old(status)[x], status[x], i)
      ensures r.NoMemory? ==> !allocOk
    {
      if owner[i] != p { Resolve(i, p); }
      r := Obtain(i, p, allocOk);
    }

    /** The hit, the refill, or the allocator. */
    method Obtain(i: nat, p: nat, allocOk: bool) returns (r: Created)
      requires Valid() && Quiet() && i < Threads() && p in free && owner[i] == p
      modifies `status, `free, cells, next
      ensures Valid() && Quiet() && free.Keys == old(free).Keys && status.Keys == old(status).Keys
      ensures r.Pooled? ==> r.node.pool == p && r.node in status && status[r.node] == Live
      ensures r.Pooled? ==> old(status)[r.node].Free? || (old(status)[r.node].Cached? && old(status)[r.node].i == i)
      ensures forall x :: x in status && r != Pooled(x) ==>
                status[x] == old(status)[x] || (old(status)[x].Free? && status[x].Cached? && status[x].i == i)
      ensures r.NoMemory? ==> !allocOk
    {
      var hit, k := ProbeCells(i, true);
      if hit {
        var node := TakeCell(i, k);
        next[i] := Round(k + 1, 0, Width());
        Mark(node, Live);
        return Pooled(node);
      }
      var batch := PopBatch(p, Width());
      if |batch| > 0 {
        Stash(i, batch);
        return Pooled(batch[0]);
      }
      return if allocOk then Malloced else NoMemory;
    }

    /** `task_destroy` of a node of pool p that is in use: into the cache, or with the whole cache onto the stack. */
    method Destroy(i: nat, p: nat, node: Node)
      requires Valid() && Quiet() && i < Threads() && p in free
      requires node.pool == p && node in status && status[node] == Live
      modifies `status, `free, cells, owner, next
      ensures Valid() && Quiet() && owner[i] == p && free.Keys == old(free).Keys && status.Keys == old(status).Keys
      ensures forall j :: 0 <= j < Threads() && j != i ==> owner[j] == old(owner[j])
      ensures status[node].Free? || (status[node].Cached? && status[node].i == i)
      ensures forall x :: x in status && x != node ==>
                status[x] == old(status)[x] || (old(status)[x].Cached? && old(status)[x].i == i && status[x].Free?)
    {
      if owner[i] != p { Resolve(i, p); }
      Park(i, node);
    }

    /** The node joins the cache of its own pool, or the whole cache is flushed with it. */
    method Park(i: nat, node: Node)
      requires Valid() && Quiet() && i < Threads() && node.pool == owner[i] && node in status && status[node] == Live
      modifies `status, `free, cells, next
      ensures Valid() && Quiet() && free.Keys == old(free).Keys && status.Keys == old(status).Keys
      ensures status[node].Free? || (status[node].Cached? && status[node].i == i)
      ensures forall x :: x in status && x != node ==>
                status[x] == old(status)[x] || (old(status)[x].Cached? && old(status)[x].i == i && status[x].Free?)
    {
      var found, k := ProbeCells(i, false);
      if found {
        Mark(node, Loose);
        PutCell(i, k, node);
        next[i] := Round(k + 1, 0, Width());
        return;
      }
      assert NodeOk(node);
      var batch := Collect(i);
      Mark(node, Loose);
      PushBatch(batch + [node]);
    }

    /** `tls_flush_to_pool`: the cache goes back to p if it is p's, and is given up otherwise. */
    method Flush(i: nat, p: nat)
      requires Valid() && Quiet() && i < Threads() && p in free
      modifies `status, `free, cells, owner
      ensures Valid() && Quiet() && RowEmpty(i) && owner[i] == 0
      ensures free.Keys == old(free).Keys && status.Keys == old(status).Keys
      ensures forall x :: x in status ==>
                status[x] == if old(status)[x].Cached? && old(status)[x].i == i
                             then (if old(owner[i]) == p then Free else Discarded) else old(status)[x]
    {
      var batch := Collect(i);
      if |batch| > 0 && batch[0].pool == p {
        PushBatch(batch);
      } else {
        Discard(batch);
      }
      SetOwner(i, 0);
    }

    /** A new pool of `cap` nodes, all free, under an id no cache mentions. */
    method Register(cap: nat) returns (p: nat)
      requires Valid() && Quiet()
      modifies `status, `free, `nextId
      ensures Valid() && Quiet() && p > 0 && p !in old(free) && free.Keys == old(free).Keys + {p} && |free[p]| == cap
      ensures forall i :: 0 <= i < Threads() ==> owner[i] != p
      ensures forall slot: nat :: Node(p, slot) in status <==> slot < cap
      ensures forall x :: x in old(status) ==> x in status && status[x] == old(status)[x]
    {
      p := nextId;
      assert p !in free by { assert p in free ==> StackOk(p); }
      forall x | x in status ensures x.pool != p { assert NodeOk(x); }
      nextId := nextId + 1;
      free := free[p := Numbers(cap)];
      status := status + AllFree(p, cap);
      forall j, l | 0 <= j < Threads() && 0 <= l < Width() ensures CellOk(j, l) { assert old(CellOk(j, l)); }
      forall x | x in status ensures NodeOk(x) {
        if x.pool == p { assert free[p][x.slot] == x.slot; } else { assert old(NodeOk(x)); }
      }
      forall q | q in free ensures StackOk(q) { assert q != p ==> old(StackOk(q)); }
    }

    /** A destroyed pool takes its nodes with it; caches may keep mentioning them until the next switch. */
    method Unregister(p: nat)
      requires Valid() && Quiet() && p in free
      modifies `status, `free
      ensures Valid() && Quiet() && free == old(free) - {p}
      ensures forall x :: x in status <==> x in old(status) && x.pool != p
      ensures forall x :: x in status ==> status[x] == old(status)[x]
    {
      free := free - {p};
      status := map x | x in status && x.pool != p :: status[x];
      forall j, l | 0 <= j < Threads() && 0 <= l < Width() ensures CellOk(j, l) { assert old(CellOk(j, l)); }
      forall x | x in status ensures NodeOk(x) { assert old(NodeOk(x)); }
      forall q | q in free ensures StackOk(q) {
        assert old(StackOk(q));
        forall k | 0 <= k < |free[q]| ensures Node(q, free[q][k]) in status { assert Node(q, free[q][k]).pool == q; }
      }
    }
  }

  function Numbers(n: nat): (xs: seq<nat>)
    ensures |xs| == n && forall k :: 0 <= k < n ==> xs[k] == k
  {
    if n == 0 then [] else Numbers(n - 1) + [n - 1]
  }

  ghost function AllFree(p: nat, cap: nat): (m: map<Node, Status>)
    ensures forall x :: x in m <==> x.pool == p && x.slot < cap
    ensures forall x :: x in m ==> m[x] == Free
  {
    if cap == 0 then map[] else AllFree(p, cap - 1)[Node(p, cap - 1) := Free]
  }

  function Round(start: nat, q: nat, width: nat): nat
    requires width > 0
  {
    (start + q) % width
  }

  lemma RoundHits(start: nat, l: nat, width: nat)
    requires start < width && l < width
    ensures var q := if l >= start then l - start else l + width - start;
            0 <= q < width && Round(start, q, width) == l
  {
    if l < start { assert (l + width) / width == 1; }
  }
}
