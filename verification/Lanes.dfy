/** The priority lanes: 256 singly linked buckets with head and tail, and a 256-bit occupancy map, changed
    under the pool lock.  `queue` is the specification: the queued tasks in order of arrival. */
module Lanes {
  import opened Collections
  import opened Bits

  type Priority = p: nat | p < 256

  class Task {
    const id: nat
    const data: nat
    const priority: Priority
    var next: Task?

    constructor (id: nat, data: nat, priority: Priority)
      ensures this.id == id && this.data == data && this.priority == priority && next == null
    {
      this.id, this.data, this.priority, next := id, data, priority, null;
    }
  }

  /** Which tasks an operation asks for: a dequeue any, a cancellation those with an id or an argument. */
  datatype Wanted = Any | ById(id: nat) | ByData(data: nat)

  predicate Hits(w: Wanted, t: Task)
  {
    match w
    case Any => true
    case ById(id) => t.id == id
    case ByData(data) => t.data == data
  }

  // ---------------------------------------------------------------- queues and their buckets

  ghost function OfPriority(q: seq<Task>, b: nat): (l: seq<Task>)
    ensures forall t :: t in l ==> t in q && t.priority == b
    ensures forall t :: t in q && t.priority == b ==> t in l
  {
    if q == [] then []
    else
      var l := OfPriority(q[..|q| - 1], b);
      var t := q[|q| - 1];
      assert q == q[..|q| - 1] + [t];
      if t.priority == b then l + [t] else l
  }

  ghost function Without(q: seq<Task>, t: Task): (r: seq<Task>)
    ensures forall u :: u in r ==> u in q && u != t
    ensures forall u :: u in q && u != t ==> u in r
  {
    if q == [] then []
    else
      var r := Without(q[..|q| - 1], t);
      var u := q[|q| - 1];
      assert q == q[..|q| - 1] + [u];
      if u == t then r else r + [u]
  }

  lemma Appended(q: seq<Task>, t: Task, b: nat)
    ensures OfPriority(q + [t], b) == OfPriority(q, b) + (if t.priority == b then [t] else [])
  {
    assert (q + [t])[..|q|] == q;
  }

  lemma {:induction false} WithoutNone(q: seq<Task>, t: Task)
    requires t !in q
    ensures Without(q, t) == q
  {
    if q != [] {
      assert q == q[..|q| - 1] + [q[|q| - 1]];
      WithoutNone(q[..|q| - 1], t);
    }
  }

  lemma {:induction false} WithoutAt(q: seq<Task>, k: nat)
    requires Distinct(q) && k < |q|
    ensures Without(q, q[k]) == q[..k] + q[k + 1..]
  {
    var n := |q| - 1;
    assert q == q[..n] + [q[n]];
    if k == n {
      WithoutNone(q[..n], q[n]);
    } else {
      WithoutAt(q[..n], k);
      assert q[..n][k] == q[k];
      assert q[..n][k + 1..] + [q[n]] == q[k + 1..];
    }
  }

  lemma {:induction false} BucketWithout(q: seq<Task>, t: Task, b: nat)
    ensures OfPriority(Without(q, t), b) == Without(OfPriority(q, b), t)
  {
    if q != [] {
      var p, u := q[..|q| - 1], q[|q| - 1];
      BucketWithout(p, t, b);
      if u != t { Appended(Without(p, t), u, b); }
      if u.priority == b {
        assert (OfPriority(p, b) + [u])[..|OfPriority(p, b)|] == OfPriority(p, b);
      }
    }
  }

  lemma {:induction false} BucketDistinct(q: seq<Task>, b: nat)
    requires Distinct(q)
    ensures Distinct(OfPriority(q, b))
  {
    if q != [] {
      BucketDistinct(q[..|q| - 1], b);
    }
  }

  lemma {:induction false} WithoutDistinct(q: seq<Task>, t: Task)
    requires Distinct(q)
    ensures Distinct(Without(q, t))
  {
    if q != [] {
      var p, u := q[..|q| - 1], q[|q| - 1];
      WithoutDistinct(p, t);
      assert u !in p;
      assert u !in Without(p, t);
    }
  }

  /** The i-th arrival goes before the j-th: smaller priority, or the same and older. */
  ghost predicate Before(q: seq<Task>, i: nat, j: nat)
    requires i < |q| && j < |q|
  {
    q[i].priority < q[j].priority || (q[i].priority == q[j].priority && i <= j)
  }

  ghost predicate FirstAt(q: seq<Task>, w: Wanted, i: nat)
    requires i < |q|
  {
    forall j {:trigger Before(q, i, j)} :: 0 <= j < |q| && Hits(w, q[j]) ==> Before(q, i, j)
  }

  /** Of the wanted tasks in the queue, `t` goes before all others. */
  ghost predicate Foremost(q: seq<Task>, w: Wanted, t: Task)
  {
    exists i {:trigger FirstAt(q, w, i)} :: 0 <= i < |q| && q[i] == t && Hits(w, t) && FirstAt(q, w, i)
  }

  /** Buckets keep the order of arrival. */
  lemma {:induction false} ArrivalOf(q: seq<Task>, b: nat, k: nat) returns (i: nat)
    requires k < |OfPriority(q, b)|
    ensures i < |q| && q[i] == OfPriority(q, b)[k]
    ensures forall j :: 0 <= j < i && q[j].priority == b ==> q[j] in OfPriority(q, b)[..k]
  {
    var p := q[..|q| - 1];
    var l := OfPriority(p, b);
    if k < |l| {
      i := ArrivalOf(p, b, k);
      assert OfPriority(q, b)[..k] == l[..k];
    } else {
      i := |q| - 1;
      assert OfPriority(q, b)[..k] == l;
      forall j | 0 <= j < i && q[j].priority == b ensures q[j] in l { assert q[j] == p[j] && p[j] in p; }
    }
  }

  /** The first wanted task of the lowest bucket that has one is the foremost wanted task. */
  lemma FirstHitIsForemost(q: seq<Task>, w: Wanted, b: nat, k: nat)
    requires k < |OfPriority(q, b)| && Hits(w, OfPriority(q, b)[k])
    requires forall u :: u in OfPriority(q, b)[..k] ==> !Hits(w, u)
    requires forall u :: u in q && u.priority < b ==> !Hits(w, u)
    ensures Foremost(q, w, OfPriority(q, b)[k])
  {
    var i := ArrivalOf(q, b, k);
    forall j | 0 <= j < |q| && Hits(w, q[j]) ensures Before(q, i, j) {
      assert q[j] in q;
    }
    assert FirstAt(q, w, i);
  }

  /** All buckets of a queue. */
  ghost function Buckets(q: seq<Task>): (ls: seq<seq<Task>>)
    ensures |ls| == 256
  {
    seq(256, b requires 0 <= b < 256 => OfPriority(q, b))
  }

  /** How many tasks the first n buckets hold. */
  ghost function Total(q: seq<Task>, n: nat): nat
  {
    if n == 0 then 0 else Total(q, n - 1) + |OfPriority(q, n - 1)|
  }

  lemma {:induction false} TotalAppended(q: seq<Task>, t: Task, n: nat)
    ensures Total(q + [t], n) == Total(q, n) + if t.priority < n then 1 else 0
  {
    if n > 0 {
      TotalAppended(q, t, n - 1);
      Appended(q, t, n - 1);
    }
  }

  lemma {:induction false} TotalEmpty(n: nat)
    ensures Total([], n) == 0
  {
    if n > 0 { TotalEmpty(n - 1); }
  }

  lemma {:induction false} TotalIsAll(q: seq<Task>)
    ensures Total(q, 256) == |q|
  {
    if q == [] {
      TotalEmpty(256);
    } else {
      var p, t := q[..|q| - 1], q[|q| - 1];
      assert q == p + [t];
      TotalIsAll(p);
      TotalAppended(p, t, 256);
    }
  }

  lemma BucketsAppend(q: seq<Task>, t: Task)
    ensures Buckets(q + [t]) == Buckets(q)[t.priority := OfPriority(q, t.priority) + [t]]
  {
    forall b | 0 <= b < 256
      ensures OfPriority(q + [t], b) == Buckets(q)[t.priority := OfPriority(q, t.priority) + [t]][b] {
      Appended(q, t, b);
    }
  }

  lemma BucketsWithout(q: seq<Task>, b: nat, k: nat)
    requires b < 256 && Distinct(q) && k < |OfPriority(q, b)|
    ensures var l := OfPriority(q, b);
            Buckets(Without(q, l[k])) == Buckets(q)[b := l[..k] + l[k + 1..]]
  {
    var l := OfPriority(q, b);
    var t := l[k];
    BucketDistinct(q, b);
    WithoutAt(l, k);
    forall c | 0 <= c < 256 ensures OfPriority(Without(q, t), c) == Buckets(q)[b := l[..k] + l[k + 1..]][c] {
      BucketWithout(q, t, c);
      if c != b { WithoutNone(OfPriority(q, c), t); }
    }
  }

  /** What stays when the k-th task of bucket b goes. */
  lemma TakenAt(q: seq<Task>, ls: seq<seq<Task>>, b: nat, k: nat)
    requires Distinct(q) && ls == Buckets(q) && b < 256 && k < |ls[b]|
    ensures var t := ls[b][k];
            && t in q && t.priority == b && Distinct(Without(q, t))
            && ls[b := ls[b][..k] + ls[b][k + 1..]] == Buckets(Without(q, t))
            && (set u | u in Without(q, t)) == (set u | u in q) - {t}
  {
    BucketsWithout(q, b, k);
    WithoutDistinct(q, ls[b][k]);
  }

  lemma LowestIsForemost(q: seq<Task>, ls: seq<seq<Task>>, b: nat)
    requires ls == Buckets(q) && b < 256 && ls[b] != [] && forall c :: 0 <= c < b ==> ls[c] == []
    ensures Foremost(q, Any, ls[b][0])
  {
    NoneUpTo(q, ls, b);
    FirstHitIsForemost(q, Any, b, 0);
  }

  lemma NoneUpTo(q: seq<Task>, ls: seq<seq<Task>>, n: nat)
    requires ls == Buckets(q) && n <= 256 && forall c :: 0 <= c < n ==> ls[c] == []
    ensures forall u :: u in q ==> u.priority >= n
  {
    forall u | u in q ensures u.priority >= n { assert u in ls[u.priority]; }
  }

  lemma NoHitIn(q: seq<Task>, ls: seq<seq<Task>>, b: nat, w: Wanted)
    requires ls == Buckets(q) && b < 256 && forall u :: u in ls[b] ==> !Hits(w, u)
    ensures forall u :: u in q && u.priority == b ==> !Hits(w, u)
  {
  }

  // ---------------------------------------------------------------- linked buckets

  ghost predicate NextOk(l: seq<Task>, k: nat)
    requires k < |l|
    reads l[k]
  {
    l[k].next == if k + 1 < |l| then l[k + 1] else null
  }

  /** The bucket with this head and tail holds exactly the list. */
  ghost predicate Linked(l: seq<Task>, head: Task?, tail: Task?, nodes: set<Task>)
    reads nodes
  {
    && (forall k :: 0 <= k < |l| ==> l[k] in nodes)
    && (l == [] ==> head == null && tail == null)
    && (l != [] ==> head == l[0] && tail == l[|l| - 1])
    && forall k {:trigger NextOk(l, k)} :: 0 <= k < |l| ==> NextOk(l, k)
  }

  ghost predicate Owned(l: seq<Task>, b: nat)
  {
    Distinct(l) && forall k :: 0 <= k < |l| ==> l[k].priority == b
  }

  lemma CutOwned(l: seq<Task>, b: nat, k: nat)
    requires k < |l| && Owned(l, b)
    ensures Owned(l[..k] + l[k + 1..], b) && l[k] !in l[..k] + l[k + 1..]
  {
    var l' := l[..k] + l[k + 1..];
    forall i | 0 <= i < |l'| ensures l'[i] == if i < k then l[i] else l[i + 1] {}
  }

  class LaneSet {
    const head: array<Task?>
    const tail: array<Task?>
    const bits: array<Word>
    var queueLen: int
    /** The queued tasks, oldest first; the buckets they make; and the set of them. */
    ghost var queue: seq<Task>
    ghost var lists: seq<seq<Task>>
    ghost var nodes: set<Task>

    ghost predicate Shape()
    {
      head.Length == 256 && tail.Length == 256 && bits.Length == 4 && head != tail
    }

    /** Bucket b is the given list, its tail is the last node, and its bit is set iff it is not empty. */
    ghost predicate Holds(b: nat, l: seq<Task>, nodes: set<Task>)
      requires Shape() && b < 256
      reads head, tail, bits, nodes
    {
      Owned(l, b) && Linked(l, head[b], tail[b], nodes) && (bits[b / 64][b % 64] <==> l != [])
    }

    ghost predicate BucketOk(b: nat)
      requires b < 256 && Shape() && |lists| == 256
      reads `lists, `nodes, head, tail, bits, nodes
    {
      Holds(b, lists[b], nodes)
    }

    ghost predicate Linkage()
      reads `lists, `nodes, head, tail, bits, nodes
    {
      Shape() && |lists| == 256 && forall b {:trigger BucketOk(b)} :: 0 <= b < 256 ==> BucketOk(b)
    }

    ghost predicate Valid()
      reads this, head, tail, bits, nodes
    {
      Linkage() && Distinct(queue) && lists == Buckets(queue) && nodes == set t | t in queue
    }

    constructor ()
      ensures Valid() && queue == [] && queueLen == 0 && fresh(head) && fresh(tail) && fresh(bits)
    {
      head := new Task?[256](_ => null);
      tail := new Task?[256](_ => null);
      bits := new Word[4](_ => ZERO);
      queueLen := 0;
      queue, lists, nodes := [], Buckets([]), {};
    }

    /** Nothing was written for bucket c. */
    twostate predicate Kept(c: nat)
      requires Shape() && c < 256
      reads head, tail, bits
    {
      && head[c] == old(head[c]) && tail[c] == old(tail[c])
      && bits[c / 64][c % 64] == old(bits[c / 64][c % 64])
    }

    /** The stores of `loom_enqueue_unlocked`. */
    method Hang(task: Task, b: nat, ghost l: seq<Task>, ghost nodes: set<Task>)
      requires Shape() && b == task.priority && Holds(b, l, nodes) && task !in nodes
      modifies head, tail, bits, task, if l == [] then {} else {l[|l| - 1]}
      ensures Holds(b, l + [task], nodes + {task})
      ensures forall c {:trigger Kept(c)} :: 0 <= c < 256 && c != b ==> Kept(c)
    {
      if tail[b] != null {
        tail[b].next := task;
      } else {
        head[b] := task;
      }
      tail[b] := task;
      task.next := null;
      bits[b / 64] := bits[b / 64][b % 64 := true];
      forall k | 0 <= k < |l| ensures NextOk(l + [task], k) { assert old(NextOk(l, k)); }
    }

    method Append(task: Task)
      requires Linkage() && task !in nodes
      modifies this`queueLen, this`lists, this`nodes, head, tail, bits, nodes, task
      ensures Linkage() && nodes == old(nodes) + {task} && queueLen == old(queueLen) + 1
      ensures lists == old(lists)[task.priority := old(lists)[task.priority] + [task]]
    {
      var b := task.priority;
      ghost var l := lists[b];
      assert BucketOk(b);
      Hang(task, b, l, nodes);
      queueLen := queueLen + 1;
      lists, nodes := lists[b := l + [task]], nodes + {task};
      forall c | 0 <= c < 256 && c != b ensures BucketOk(c) {
        assert old(BucketOk(c)) && Kept(c);
        forall k | 0 <= k < |lists[c]| ensures NextOk(lists[c], k) {
          assert old(NextOk(lists[c], k)) && lists[c][k].priority == c;
        }
      }
    }

    /** `loom_enqueue_unlocked`: the task becomes the newest one. */
    method Enqueue(task: Task)
      requires Valid() && task !in queue
      modifies this, head, tail, bits, nodes, task
      ensures Valid() && queue == old(queue) + [task] && queueLen == old(queueLen) + 1
    {
      BucketsAppend(queue, task);
      Append(task);
      queue := queue + [task];
    }

    /** The lowest non-empty bucket, found through the occupancy words; 256 if there is none. */
    method Lowest() returns (b: nat)
      requires Linkage()
      ensures b <= 256 && (b < 256 ==> lists[b] != [])
      ensures forall c :: 0 <= c < b ==> lists[c] == []
    {
      for w := 0 to 4
        invariant forall c :: 0 <= c < 64 * w ==> lists[c] == []
      {
        if !IsZero(bits[w]) {
          b := 64 * w + Ctz(bits[w]);
          assert BucketOk(b);
          forall c | 0 <= c < b ensures lists[c] == [] { assert BucketOk(c); }
          return;
        }
        forall c | 64 * w <= c < 64 * w + 64 ensures lists[c] == [] { assert BucketOk(c); }
      }
      b := 256;
    }

    /** `lane_has_priority` */
    method HasPriority(max: nat) returns (yes: bool)
      requires Valid()
      ensures yes <==> exists t :: t in queue && t.priority <= max
    {
      var b := Lowest();
      yes := b < 256 && b <= max;
      if yes { assert lists[b][0] in queue; }
      else { forall t | t in queue ensures t.priority > max { assert t in lists[t.priority]; } }
    }

    /** The stores of `dequeue_lowest_priority_unlocked`. */
    method PopHead(b: nat, ghost l: seq<Task>, ghost nodes: set<Task>) returns (t: Task)
      requires Shape() && b < 256 && l != [] && Holds(b, l, nodes)
      modifies head, tail, bits, l[0]
      ensures t == l[0] && t.next == null && Holds(b, l[1..], nodes - {t})
      ensures forall c {:trigger Kept(c)} :: 0 <= c < 256 && c != b ==> Kept(c)
    {
      assert NextOk(l, 0);
      t := head[b];
      head[b] := t.next;
      if head[b] == null {
        tail[b] := null;
        bits[b / 64] := bits[b / 64][b % 64 := false];
      }
      t.next := null;
      forall i | 0 <= i < |l| - 1 ensures NextOk(l[1..], i) { assert old(NextOk(l, i + 1)); }
    }

    method RemoveHead(b: nat) returns (t: Task)
      requires Linkage() && b < 256 && lists[b] != []
      modifies this`queueLen, this`lists, this`nodes, head, tail, bits, nodes
      ensures Linkage() && nodes == old(nodes) - {t} && queueLen == old(queueLen) - 1
      ensures t == old(lists)[b][0] && t.next == null && lists == old(lists)[b := old(lists)[b][1..]]
    {
      ghost var l := lists[b];
      assert BucketOk(b);
      t := PopHead(b, l, nodes);
      queueLen := queueLen - 1;
      lists, nodes := lists[b := l[1..]], nodes - {t};
      forall c | 0 <= c < 256 && c != b ensures BucketOk(c) {
        assert old(BucketOk(c)) && Kept(c);
        forall k | 0 <= k < |lists[c]| ensures NextOk(lists[c], k) {
          assert old(NextOk(lists[c], k)) && lists[c][k].priority == c;
        }
      }
    }

    /** `dequeue_lowest_priority_unlocked`: the foremost task, unless its priority exceeds the bound. */
    method Dequeue(max: nat) returns (t: Task?)
      requires Valid()
      modifies this, head, tail, bits, nodes
      ensures Valid()
      ensures t == null ==> queue == old(queue) && queueLen == old(queueLen) && forall u :: u in queue ==>
                u.priority > max
      ensures t != null ==> t.priority <= max && t.next == null && Foremost(old(queue), Any, t)
      ensures t != null ==> queue == Without(old(queue), t) && queueLen == old(queueLen) - 1
    {
      var b := Lowest();
      NoneUpTo(queue, lists, b);
      if b == 256 || b > max { return null; }
      LowestIsForemost(queue, lists, b);
      TakenAt(queue, lists, b, 0);
      assert lists[b][..0] + lists[b][1..] == lists[b][1..];
      t := RemoveHead(b);
      queue := Without(queue, t);
    }

    /** The stores that take node k out of bucket b: `prev` is the node before it, if any. */
    method Unhook(b: nat, prev: Task?, t: Task, ghost l: seq<Task>, ghost k: nat, ghost nodes: set<Task>)
      requires Shape() && b < 256 && k < |l| && Holds(b, l, nodes) && t == l[k]
      requires prev == if k == 0 then null else l[k - 1]
      modifies head, tail, bits, if k == 0 then {} else {l[k - 1]}
      ensures Holds(b, l[..k] + l[k + 1..], nodes - {t})
      ensures forall c {:trigger Kept(c)} :: 0 <= c < 256 && c != b ==> Kept(c)
    {
      assert NextOk(l, k);
      if prev != null {
        prev.next := t.next;
      } else {
        head[b] := t.next;
      }
      if t == tail[b] { tail[b] := prev; }
      if head[b] == null { bits[b / 64] := bits[b / 64][b % 64 := false]; }
      ghost var l' := l[..k] + l[k + 1..];
      CutOwned(l, b, k);
      forall i | 0 <= i < |l'| ensures NextOk(l', i) {
        if i < k { assert old(NextOk(l, i)); } else { assert old(NextOk(l, i + 1)); }
      }
    }

    method Remove(b: nat, prev: Task?, t: Task, ghost k: nat)
      requires Linkage() && b < 256 && k < |lists[b]| && t == lists[b][k]
      requires prev == if k == 0 then null else lists[b][k - 1]
      modifies this`queueLen, this`lists, this`nodes, head, tail, bits, nodes
      ensures Linkage() && nodes == old(nodes) - {t} && queueLen == old(queueLen) - 1
      ensures lists == old(lists)[b := old(lists)[b][..k] + old(lists)[b][k + 1..]]
    {
      ghost var l := lists[b];
      assert BucketOk(b);
      Unhook(b, prev, t, l, k, nodes);
      queueLen := queueLen - 1;
      lists, nodes := lists[b := l[..k] + l[k + 1..]], nodes - {t};
      forall c | 0 <= c < 256 && c != b ensures BucketOk(c) {
        assert old(BucketOk(c)) && Kept(c);
        forall k | 0 <= k < |lists[c]| ensures NextOk(lists[c], k) {
          assert old(NextOk(lists[c], k)) && lists[c][k].priority == c;
        }
      }
    }

    /** The walk along one bucket. */
    method Seek(b: nat, w: Wanted) returns (prev: Task?, t: Task?, ghost k: nat)
      requires Linkage() && b < 256
      ensures t == null <==> forall u :: u in lists[b] ==> !Hits(w, u)
      ensures t != null ==>
                k < |lists[b]| && t == lists[b][k] && Hits(w, t) && prev == (if k == 0 then null else lists[b][k - 1])
      ensures t != null ==> forall u :: u in lists[b][..k] ==> !Hits(w, u)
    {
      ghost var l := lists[b];
      assert BucketOk(b);
      prev, t, k := null, head[b], 0;
      while t != null
        invariant k <= |l| && (t == null <==> k == |l|) && (t != null ==> t == l[k])
        invariant prev == if k == 0 then null else l[k - 1]
        invariant forall i :: 0 <= i < k ==> !Hits(w, l[i])
        decreases |l| - k
      {
        if Hits(w, t) { return; }
        assert NextOk(l, k);
        prev, t, k := t, t.next, k + 1;
      }
    }

    method SeekAll(w: Wanted) returns (b: nat, prev: Task?, t: Task?, ghost k: nat)
      requires Valid()
      ensures t == null ==> forall u :: u in queue ==> !Hits(w, u)
      ensures t != null ==>
                b < 256 && k < |lists[b]| && t == lists[b][k] && prev == (if k == 0 then null else lists[b][k - 1])
      ensures t != null ==> Foremost(queue, w, t)
    {
      b, k := 0, 0;
      while b < 256
        invariant b <= 256 && forall u :: u in queue && u.priority < b ==> !Hits(w, u)
      {
        prev, t, k := Seek(b, w);
        if t != null {
          FirstHitIsForemost(queue, w, b, k);
          return;
        }
        NoHitIn(queue, lists, b, w);
        b := b + 1;
      }
      prev, t := null, null;
    }

    /** The lane part of `loom_pool_cancel` and `loom_pool_cancel_by_id`: takes out the first match in
        order of priority, then age, from the middle of its bucket if need be. */
    method Cancel(w: Wanted) returns (t: Task?)
      requires Valid()
      modifies this, head, tail, bits, nodes
      ensures Valid()
      ensures t == null <==> forall u :: u in old(queue) ==> !Hits(w, u)
      ensures t == null ==> queue == old(queue) && queueLen == old(queueLen)
      ensures t != null ==> Foremost(old(queue), w, t)
      ensures t != null ==> queue == Without(old(queue), t) && queueLen == old(queueLen) - 1
    {
      var b, prev;
      ghost var k;
      b, prev, t, k := SeekAll(w);
      if t != null {
        TakenAt(queue, lists, b, k);
        Remove(b, prev, t, k);
        queue := Without(queue, t);
      }
    }

    /** Clear bucket b and walk its nodes, which are destroyed. */
    method Discard(b: nat, ghost l: seq<Task>, ghost nodes: set<Task>) returns (count: nat)
      requires Shape() && b < 256 && Linked(l, head[b], tail[b], nodes)
      modifies head, tail
      ensures head[b] == null && tail[b] == null && count == |l|
      ensures forall c :: 0 <= c < 256 && c != b ==> head[c] == old(head[c]) && tail[c] == old(tail[c])
    {
      var cur := head[b];
      head[b] := null;
      tail[b] := null;
      count := 0;
      while cur != null
        invariant count <= |l| && (cur == null <==> count == |l|) && (cur != null ==> cur == l[count])
        decreases |l| - count
      {
        assert NextOk(l, count);
        cur := cur.next;
        count := count + 1;
      }
    }

    method ClearBits()
      requires Shape()
      modifies bits
      ensures forall w :: 0 <= w < 4 ==> bits[w] == ZERO
    {
      for w := 0 to 4
        invariant forall v :: 0 <= v < w ==> bits[v] == ZERO
      {
        bits[w] := ZERO;
      }
    }

    /** The lane part of `loom_pool_cancel_all`: every queued task goes and is counted once. */
    method CancelAll() returns (cancelled: nat)
      requires Valid()
      modifies this, head, tail, bits
      ensures Valid() && queue == [] && cancelled == |old(queue)| && queueLen == old(queueLen) - cancelled
    {
      cancelled := 0;
      for b := 0 to 256
        invariant lists == old(lists) && nodes == old(nodes) && Shape()
        invariant forall c :: 0 <= c < b ==> head[c] == null && tail[c] == null
        invariant forall c :: b <= c < 256 ==> head[c] == old(head[c]) && tail[c] == old(tail[c])
        invariant cancelled == Total(old(queue), b) && queueLen == old(queueLen) - cancelled
      {
        assert old(BucketOk(b));
        var n := Discard(b, lists[b], nodes);
        cancelled := cancelled + n;
        queueLen := queueLen - n;
      }
      ClearBits();
      TotalIsAll(old(queue));
      queue, lists, nodes := [], Buckets([]), {};
    }
  }
}
