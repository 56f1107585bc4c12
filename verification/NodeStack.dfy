/** The ABA-tagged free list of task-node slots (`node_stack_batch_pop`, `node_stack_batch_push`) as a
    transition system: every load and store of a link cell and every compare-and-swap on the tagged
    head is one step, interleaved freely between any number of threads.  The tag is unbounded (it is
    assumed not to wrap around 2^32 while a thread sits between its load and its CAS). */
module NodeStack {
  import opened Collections
  import opened Runs

  datatype Link = End | Slot(idx: nat)

  datatype Owner = Free | Held(thread: nat)

  datatype Thread =
    | Idle
    | Walk(want: nat, tag: nat, path: seq<nat>)               // walked `path`; about to follow the last link
    | Ending(want: nat, tag: nat, path: seq<nat>)             // about to read the successor of the last slot
    | PopCas(want: nat, tag: nat, path: seq<nat>, succ: Link)
    | Collect(path: seq<nat>, out: seq<nat>, det: Link)       // the CAS won; writing out[]
    | Linking(batch: seq<nat>, i: nat)                        // about to link batch[i] to batch[i + 1]
    | Closing(batch: seq<nat>, tag: nat, top: Link)          // about to store the last link
    | PushCas(batch: seq<nat>, tag: nat, top: Link)

  /** `free` is the abstract free list and `owner` says who owns each slot: both are history. */
  datatype State = State(
    head: Link,
    tag: nat,
    next: seq<Link>,
    threads: seq<Thread>,
    free: seq<nat>,
    owner: seq<Owner>)

  datatype Step =
    | StartPop(t: nat, want: nat)
    | StartPush(t: nat, batch: seq<nat>)
    | Go(t: nat)
    | Hand(t: nat, u: nat, x: nat)     // a node in use passes from thread t to thread u, as through the ring
    | Spurious(t: nat)                 // a weak CAS fails although the head is unchanged

  predicate HeldAll(owner: seq<Owner>, t: nat, xs: seq<nat>)
  {
    forall i :: 0 <= i < |xs| ==> xs[i] < |owner| && owner[xs[i]] == Held(t)
  }

  /** The slots a thread is working on: it detached them or is about to publish them. */
  function Busy(th: Thread): seq<nat>
  {
    match th
    case Collect(path, _, _) => path
    case Linking(batch, _) => batch
    case Closing(batch, _, _) => batch
    case PushCas(batch, _, _) => batch
    case _ => []
  }

  function LinkAt(xs: seq<nat>, i: nat): Link
  {
    if i < |xs| then Slot(xs[i]) else End
  }

  /** The slots of the path are cells of the pool, so following its last link is a valid load. */
  predicate InPool(s: State, path: seq<nat>)
  {
    path != [] && path[|path| - 1] < |s.next|
  }

  ghost predicate Enabled(s: State, a: Step)
  {
    match a
    case StartPop(t, want) => t < |s.threads| && s.threads[t].Idle? && want > 0
    case StartPush(t, batch) =>
      // the caller hands in a non-empty batch of distinct slots that it owns
      t < |s.threads| && s.threads[t].Idle? && batch != [] && Distinct(batch) && HeldAll(s.owner, t, batch)
    case Go(t) =>
      && t < |s.threads| && !s.threads[t].Idle?
      && match s.threads[t] {
           case Walk(_, _, path) => InPool(s, path)
           case Ending(_, _, path) => InPool(s, path)
           case PopCas(_, _, path, _) => InPool(s, path)
           case Collect(path, out, det) => |out| < |path| ==> det.Slot? && det.idx < |s.next|
           case Linking(batch, i) => i + 1 < |batch| ==> batch[i] < |s.next|
           case Closing(batch, _, _) => InPool(s, batch)
           case _ => true
         }
    case Hand(t, u, x) =>
      // whatever t is doing, except with x itself
      t < |s.threads| && u < |s.threads| && x < |s.owner| && s.owner[x] == Held(t) && x !in Busy(s.threads[t])
    case Spurious(t) => t < |s.threads| && (s.threads[t].PopCas? || s.threads[t].PushCas?)
  }

  function Set(s: State, t: nat, th: Thread): State
    requires t < |s.threads|
  {
    s.(threads := s.threads[t := th])
  }

  /** The top of the pop loop, with a freshly read head: empty means return 0. */
  function Retry(s: State, want: nat): Thread
  {
    if s.head.End? then Idle else Walk(want, s.tag, [s.head.idx])
  }

  function Give(owner: seq<Owner>, xs: seq<nat>, o: Owner): (r: seq<Owner>)
    ensures |r| == |owner|
    ensures forall x :: 0 <= x < |owner| ==> r[x] == if x in xs then o else owner[x]
  {
    seq(|owner|, x requires 0 <= x < |owner| => if x in xs then o else owner[x])
  }

  function Last(xs: seq<nat>): nat
    requires xs != []
  {
    xs[|xs| - 1]
  }

  function GoStep(s: State, t: nat): State
    requires Enabled(s, Go(t))
  {
    match s.threads[t]
    case Walk(want, tag, path) =>
      if |path| < want then
        match s.next[Last(path)]
        case End => Set(s, t, Ending(want, tag, path))
        case Slot(x) => Set(s, t, Walk(want, tag, path + [x]))
      else Set(s, t, Ending(want, tag, path))
    case Ending(want, tag, path) =>
      Set(s, t, PopCas(want, tag, path, s.next[Last(path)]))
    case PopCas(want, tag, path, succ) =>
      if s.head == Slot(path[0]) && s.tag == tag then
        Set(s, t, Collect(path, [], s.head)).(
          head := succ, tag := tag + 1,
          free := if |path| <= |s.free| then s.free[|path|..] else [],
          owner := Give(s.owner, path, Held(t)))
      else Set(s, t, Retry(s, want))
    case Collect(path, out, det) =>
      if |out| < |path| then Set(s, t, Collect(path, out + [det.idx], s.next[det.idx]))
      else Set(s, t, Idle)
    case Linking(batch, i) =>
      if i + 1 < |batch| then
        Set(s, t, Linking(batch, i + 1)).(next := s.next[batch[i] := Slot(batch[i + 1])])
      else Set(s, t, Closing(batch, s.tag, s.head))
    case Closing(batch, tag, top) =>
      Set(s, t, PushCas(batch, tag, top)).(next := s.next[Last(batch) := top])
    case PushCas(batch, tag, top) =>
      if s.head == top && s.tag == tag && batch != [] then
        Set(s, t, Idle).(
          head := Slot(batch[0]), tag := tag + 1,
          free := batch + s.free,
          owner := Give(s.owner, batch, Free))
      else Set(s, t, Closing(batch, s.tag, s.head))
    case Idle => s
  }

  function Do(s: State, a: Step): State
    requires Enabled(s, a)
  {
    match a
    case StartPop(t, want) => Set(s, t, Retry(s, want))
    case StartPush(t, batch) => Set(s, t, Linking(batch, 0))
    case Go(t) => GoStep(s, t)
    case Hand(t, u, x) => s.(owner := s.owner[x := Held(u)])
    case Spurious(t) =>
      match s.threads[t]
      case PopCas(want, _, _, _) => Set(s, t, Retry(s, want))
      case PushCas(batch, _, _) => Set(s, t, Closing(batch, s.tag, s.head))
      case _ => s
  }

  /** `pool_init` seeds the list full: 0 -> 1 -> ... -> cap - 1 -> END, tag 0. */
  ghost predicate Init(s: State)
  {
    && |s.free| == |s.next| == |s.owner|
    && (forall i :: 0 <= i < |s.free| ==> s.free[i] == i)
    && (forall i :: 0 <= i < |s.next| ==> s.next[i] == LinkAt(s.free, i + 1))
    && s.head == LinkAt(s.free, 0) && s.tag == 0
    && (forall i :: 0 <= i < |s.owner| ==> s.owner[i].Free?)
    && (forall t :: 0 <= t < |s.threads| ==> s.threads[t].Idle?)
  }

  ghost predicate Next(s: State, s': State)
  {
    exists a :: Enabled(s, a) && s' == Do(s, a)
  }

  // ---------------------------------------------------------------- invariant

  /** The i-th slot of `xs` links to the next one, or to END from the last. */
  predicate Joined(next: seq<Link>, xs: seq<nat>, i: nat)
    requires i < |xs|
  {
    xs[i] < |next| && next[xs[i]] == LinkAt(xs, i + 1)
  }

  /** `xs` is linked by `next` up to, but not including, its last link. */
  ghost predicate Linked(next: seq<Link>, xs: seq<nat>, upto: nat)
  {
    forall i {:trigger Joined(next, xs, i)} :: 0 <= i < upto && i + 1 < |xs| ==> Joined(next, xs, i)
  }

  /** Following `next` from `head` visits exactly `free` and then ends: the chain has no cycle. */
  ghost predicate Chain(s: State)
  {
    s.head == LinkAt(s.free, 0) && Distinct(s.free) && Ends(s.next, s.free)
  }

  /** `xs` is linked all the way, and its last link is the end marker. */
  ghost predicate Ends(next: seq<Link>, xs: seq<nat>)
  {
    && (forall i :: 0 <= i < |xs| ==> xs[i] < |next|)
    && (forall i {:trigger Joined(next, xs, i)} :: 0 <= i < |xs| ==> Joined(next, xs, i))
  }

  /** A slot is on the chain exactly when no thread owns it. */
  ghost predicate Partition(s: State)
  {
    && |s.owner| == |s.next|
    && (forall x :: 0 <= x < |s.owner| ==> (x in s.free <==> s.owner[x].Free?))
  }

  predicate Valid(l: Link, cap: nat)
  {
    l.Slot? ==> l.idx < cap
  }

  ghost predicate LinksValid(s: State)
  {
    forall x :: 0 <= x < |s.next| ==> Valid(s.next[x], |s.next|)
  }

  ghost predicate Inside(xs: seq<nat>, cap: nat)
  {
    xs != [] && forall i :: 0 <= i < |xs| ==> xs[i] < cap
  }

  /** What a thread knows.  A walk says nothing unless its tag is still current; then the walked path is
      a prefix of the free list. */
  ghost predicate ThreadOk(s: State, t: nat)
    requires t < |s.threads|
  {
    match s.threads[t]
    case Idle => true
    case Walk(want, tag, path) =>
      && Inside(path, |s.next|) && |path| <= want && tag <= s.tag
      && (tag == s.tag ==> path <= s.free)
    case Ending(want, tag, path) =>
      && Inside(path, |s.next|) && |path| <= want && tag <= s.tag
      && (tag == s.tag ==> path <= s.free && (|path| == want || path == s.free))
    case PopCas(want, tag, path, succ) =>
      && Inside(path, |s.next|) && |path| <= want && tag <= s.tag && Valid(succ, |s.next|)
      && (tag == s.tag ==> path <= s.free && (|path| == want || path == s.free) && succ == LinkAt(s.free, |path|))
    case Collect(path, out, det) =>
      && Inside(path, |s.next|) && HeldAll(s.owner, t, path) && Linked(s.next, path, |path|)
      && out <= path && (|out| < |path| ==> det == Slot(path[|out|]))
    case Linking(batch, i) =>
      Inside(batch, |s.next|) && Distinct(batch) && HeldAll(s.owner, t, batch)
        && i < |batch| && Linked(s.next, batch, i)
    case Closing(batch, tag, top) =>
      && Inside(batch, |s.next|) && Distinct(batch) && HeldAll(s.owner, t, batch) && Linked(s.next, batch, |batch| - 1)
      && Valid(top, |s.next|)
    case PushCas(batch, tag, top) =>
      && Inside(batch, |s.next|) && Distinct(batch) && HeldAll(s.owner, t, batch) && Linked(s.next, batch, |batch| - 1)
      && Valid(top, |s.next|) && s.next[Last(batch)] == top
  }

  ghost predicate Threads(s: State)
  {
    forall t :: 0 <= t < |s.threads| ==> ThreadOk(s, t)
  }

  ghost predicate Inv(s: State)
  {
    Chain(s) && Partition(s) && LinksValid(s) && Threads(s)
  }

  // ---------------------------------------------------------------- proof

  lemma LinkedFrame(next: seq<Link>, next': seq<Link>, xs: seq<nat>, upto: nat)
    requires Linked(next, xs, upto) && |next'| == |next|
    requires forall i :: 0 <= i < |xs| && i < upto ==> xs[i] < |next| && next'[xs[i]] == next[xs[i]]
    ensures Linked(next', xs, upto)
  {
    forall i | 0 <= i < upto && i + 1 < |xs| ensures Joined(next', xs, i) {
      assert Joined(next, xs, i);
    }
  }

  lemma EndsFrame(next: seq<Link>, next': seq<Link>, xs: seq<nat>)
    requires Ends(next, xs) && |next'| == |next|
    requires forall i :: 0 <= i < |xs| ==> next'[xs[i]] == next[xs[i]]
    ensures Ends(next', xs)
  {
    forall i | 0 <= i < |xs| ensures Joined(next', xs, i) {
      assert Joined(next, xs, i);
    }
  }

  /** A thread's knowledge survives what other threads do: they only write the links of slots they own,
      and whenever the list itself changes the tag moves on. */
  lemma ThreadFrame(s: State, s': State, t: nat)
    requires t < |s.threads| && ThreadOk(s, t)
    requires |s'.threads| == |s.threads| && s'.threads[t] == s.threads[t]
    requires |s'.next| == |s.next| == |s.owner| == |s'.owner|
    requires s.tag <= s'.tag && (s'.tag == s.tag ==> s'.free == s.free)
    requires forall x :: 0 <= x < |s.next| && s.owner[x] == Held(t) && x in Busy(s.threads[t]) ==>
               s'.owner[x] == Held(t) && s'.next[x] == s.next[x]
    ensures ThreadOk(s', t)
  {
    match s.threads[t]
    case Collect(path, _, _) => LinkedFrame(s.next, s'.next, path, |path|);
    case Linking(batch, i) => LinkedFrame(s.next, s'.next, batch, i);
    case Closing(batch, _, _) => LinkedFrame(s.next, s'.next, batch, |batch| - 1);
    case PushCas(batch, _, _) => LinkedFrame(s.next, s'.next, batch, |batch| - 1);
    case _ =>
  }

  lemma OnlyThreadMoves(s: State, t: nat, th: Thread)
    requires Inv(s) && t < |s.threads| && ThreadOk(Set(s, t, th), t)
    ensures Inv(Set(s, t, th))
  {
    var s' := Set(s, t, th);
    forall k | 0 <= k < |s'.threads| ensures ThreadOk(s', k) {
      if k != t { ThreadFrame(s, s', k); }
    }
  }

  /** Storing into the link of a slot the thread owns leaves the list and all other threads alone. */
  lemma OwnerWrites(s: State, t: nat, x: nat, l: Link, th: Thread)
    requires Inv(s) && t < |s.threads| && x < |s.next| && s.owner[x] == Held(t) && Valid(l, |s.next|)
    requires ThreadOk(Set(s, t, th).(next := s.next[x := l]), t)
    ensures Inv(Set(s, t, th).(next := s.next[x := l]))
  {
    var s' := Set(s, t, th).(next := s.next[x := l]);
    assert x !in s.free;
    EndsFrame(s.next, s'.next, s.free);
    forall k | 0 <= k < |s'.threads| ensures ThreadOk(s', k) {
      if k != t { ThreadFrame(s, s', k); }
    }
  }

  lemma StepWalk(s: State, t: nat)
    requires Inv(s) && Enabled(s, Go(t)) && (s.threads[t].Walk? || s.threads[t].Ending?)
    ensures Inv(GoStep(s, t))
  {
    var s' := GoStep(s, t);
    assert ThreadOk(s, t);
    var path := s.threads[t].path;
    if s.threads[t].tag == s.tag {
      assert Joined(s.next, s.free, |path| - 1);
    }
    OnlyThreadMoves(s, t, s'.threads[t]);
  }

  lemma EndsSuffix(next: seq<Link>, xs: seq<nat>, k: nat)
    requires k <= |xs| && Ends(next, xs) && Distinct(xs)
    ensures Ends(next, xs[k..]) && Distinct(xs[k..])
    ensures forall x :: x in xs[..k] ==> x !in xs[k..]
  {
    forall i | 0 <= i < |xs[k..]| ensures Joined(next, xs[k..], i) {
      assert Joined(next, xs, i + k);
    }
  }

  lemma EndsPrepend(next: seq<Link>, batch: seq<nat>, xs: seq<nat>)
    requires batch != [] && Distinct(batch) && Linked(next, batch, |batch| - 1)
    requires forall i :: 0 <= i < |batch| ==> batch[i] < |next| && batch[i] !in xs
    requires Ends(next, xs) && Distinct(xs) && next[Last(batch)] == LinkAt(xs, 0)
    ensures Ends(next, batch + xs) && Distinct(batch + xs)
  {
    forall i, j | 0 <= i < j < |batch + xs| ensures (batch + xs)[i] != (batch + xs)[j] {
      if i < |batch| <= j {
        assert batch[i] !in xs;
        assert xs[j - |batch|] in xs;
      }
    }
    forall i | 0 <= i < |batch + xs| ensures Joined(next, batch + xs, i) {
      if i + 1 < |batch| {
        assert Joined(next, batch, i);
      } else if i >= |batch| {
        assert Joined(next, xs, i - |batch|);
      }
    }
  }

  lemma PopKeepsList(s: State, t: nat)
    requires Chain(s) && Partition(s) && Enabled(s, Go(t)) && ThreadOk(s, t)
    requires s.threads[t].PopCas? && s.threads[t].tag == s.tag
    ensures s.head == Slot(s.threads[t].path[0])
    ensures Chain(GoStep(s, t)) && Partition(GoStep(s, t))
    ensures s.free == s.threads[t].path + GoStep(s, t).free
  {
    var path := s.threads[t].path;
    assert s.free[0] == path[0];
    assert s.free == path + s.free[|path|..];
    EndsSuffix(s.next, s.free, |path|);
  }

  lemma PopKeepsThreads(s: State, t: nat, k: nat)
    requires Chain(s) && Partition(s) && Enabled(s, Go(t)) && ThreadOk(s, t)
    requires s.threads[t].PopCas? && s.threads[t].tag == s.tag
    requires k < |s.threads| && ThreadOk(s, k)
    ensures ThreadOk(GoStep(s, t), k)
  {
    var s' := GoStep(s, t);
    var path := s.threads[t].path;
    assert s.free[0] == path[0];
    forall x | x in path ensures x in s.free {}
    if k != t {
      ThreadFrame(s, s', k);
    } else {
      forall i | 0 <= i < |path| && i + 1 < |path| ensures Joined(s'.next, path, i) {
        assert Joined(s.next, s.free, i);
      }
    }
  }

  lemma StepPopCas(s: State, t: nat)
    requires Inv(s) && Enabled(s, Go(t)) && s.threads[t].PopCas?
    ensures Inv(GoStep(s, t))
  {
    var s' := GoStep(s, t);
    assert ThreadOk(s, t);
    if s.threads[t].tag == s.tag {
      PopKeepsList(s, t);
      forall k | 0 <= k < |s'.threads| ensures ThreadOk(s', k) {
        PopKeepsThreads(s, t, k);
      }
    } else {
      StepRetry(s, t, s.threads[t].want);
    }
  }

  lemma StepRetry(s: State, t: nat, want: nat)
    requires Inv(s) && t < |s.threads| && want > 0
    ensures Inv(Set(s, t, Retry(s, want)))
  {
    OnlyThreadMoves(s, t, Retry(s, want));
  }

  lemma StepCollect(s: State, t: nat)
    requires Inv(s) && Enabled(s, Go(t)) && s.threads[t].Collect?
    ensures Inv(GoStep(s, t))
  {
    assert ThreadOk(s, t);
    var path, out := s.threads[t].path, s.threads[t].out;
    if |out| + 1 < |path| { assert Joined(s.next, path, |out|); }
    OnlyThreadMoves(s, t, GoStep(s, t).threads[t]);
  }

  lemma StepLinking(s: State, t: nat)
    requires Inv(s) && Enabled(s, Go(t)) && s.threads[t].Linking?
    ensures Inv(GoStep(s, t))
  {
    assert ThreadOk(s, t);
    var batch, i := s.threads[t].batch, s.threads[t].i;
    if i + 1 < |batch| {
      var next' := s.next[batch[i] := Slot(batch[i + 1])];
      LinkedFrame(s.next, next', batch, i);
      assert Joined(next', batch, i);
      OwnerWrites(s, t, batch[i], Slot(batch[i + 1]), Linking(batch, i + 1));
    } else {
      OnlyThreadMoves(s, t, Closing(batch, s.tag, s.head));
    }
  }

  lemma StepClosing(s: State, t: nat)
    requires Inv(s) && Enabled(s, Go(t)) && s.threads[t].Closing?
    ensures Inv(GoStep(s, t))
  {
    assert ThreadOk(s, t);
    var th := s.threads[t];
    LinkedFrame(s.next, s.next[Last(th.batch) := th.top], th.batch, |th.batch| - 1);
    OwnerWrites(s, t, Last(th.batch), th.top, PushCas(th.batch, th.tag, th.top));
  }

  lemma PushKeepsList(s: State, t: nat)
    requires Chain(s) && Partition(s) && Enabled(s, Go(t)) && ThreadOk(s, t)
    requires s.threads[t].PushCas? && s.threads[t].tag == s.tag && s.threads[t].top == s.head
    ensures Chain(GoStep(s, t)) && Partition(GoStep(s, t))
  {
    EndsPrepend(s.next, s.threads[t].batch, s.free);
  }

  lemma StepPushCas(s: State, t: nat)
    requires Inv(s) && Enabled(s, Go(t)) && s.threads[t].PushCas?
    ensures Inv(GoStep(s, t))
  {
    var s' := GoStep(s, t);
    assert ThreadOk(s, t);
    var th := s.threads[t];
    if s.head == th.top && s.tag == th.tag {
      PushKeepsList(s, t);
      forall k | 0 <= k < |s'.threads| ensures ThreadOk(s', k) {
        if k != t { ThreadFrame(s, s', k); }
      }
    } else {
      OnlyThreadMoves(s, t, Closing(th.batch, s.tag, s.head));
    }
  }

  lemma StepHand(s: State, t: nat, u: nat, x: nat)
    requires Inv(s) && Enabled(s, Hand(t, u, x))
    ensures Inv(Do(s, Hand(t, u, x)))
  {
    var s' := Do(s, Hand(t, u, x));
    forall k | 0 <= k < |s.threads| ensures ThreadOk(s', k) { ThreadFrame(s, s', k); }
  }

  lemma InvStep(s: State, s': State)
    requires Inv(s) && Next(s, s')
    ensures Inv(s')
  {
    var a :| Enabled(s, a) && s' == Do(s, a);
    match a
    case StartPop(t, want) => StepRetry(s, t, want);
    case StartPush(t, batch) => OnlyThreadMoves(s, t, Linking(batch, 0));
    case Hand(t, u, x) => StepHand(s, t, u, x);
    case Spurious(t) =>
      assert ThreadOk(s, t);
      OnlyThreadMoves(s, t, s'.threads[t]);
    case Go(t) =>
      match s.threads[t]
      case Walk(_, _, _) => StepWalk(s, t);
      case Ending(_, _, _) => StepWalk(s, t);
      case PopCas(_, _, _, _) => StepPopCas(s, t);
      case Collect(_, _, _) => StepCollect(s, t);
      case Linking(_, _) => StepLinking(s, t);
      case Closing(_, _, _) => StepClosing(s, t);
      case PushCas(_, _, _) => StepPushCas(s, t);
  }

  // ---------------------------------------------------------------- theorems

  lemma InitInv(s: State)
    requires Init(s)
    ensures Inv(s)
  {
    forall x | 0 <= x < |s.owner| ensures x in s.free { assert s.free[x] == x; }
  }

  lemma Reachable(r: seq<State>)
    requires IsRun(Init, Next, r)
    ensures forall i :: 0 <= i < |r| ==> Inv(r[i])
  {
    forall s | Init(s) ensures Inv(s) { InitInv(s); }
    forall s, s' | Inv(s) && Next(s, s') ensures Inv(s') { InvStep(s, s'); }
    RunKeeps(Init, Next, Inv, r);
  }

  /** Main result.  In every state of every run the chain from the head is a finite list of distinct
      slots ending in END; each slot of the pool is either on it or owned by exactly one thread; and
      every link, even one a stale walk may still follow, stays inside the pool, so no thread in the
      middle of a pop or push is ever about to touch a cell outside it. */
  lemma FreeChainSound(r: seq<State>, i: nat)
    requires IsRun(Init, Next, r) && i < |r|
    ensures Chain(r[i]) && Partition(r[i]) && LinksValid(r[i])
    ensures forall t :: 0 <= t < |r[i].threads| && !r[i].threads[t].Idle? ==> Enabled(r[i], Go(t))
  {
    Reachable(r);
    forall t | 0 <= t < |r[i].threads| && !r[i].threads[t].Idle? ensures Enabled(r[i], Go(t)) {
      assert ThreadOk(r[i], t);
    }
  }

  /** The slots of the free list and their links. */
  ghost predicate SameList(s: State, s': State)
  {
    && s'.head == s.head && s'.free == s.free
    && forall i :: 0 <= i < |s.free| ==>
         s.free[i] < |s.next| && s.free[i] < |s'.next| && s'.next[s.free[i]] == s.next[s.free[i]]
  }

  lemma TagMovesWithList(s: State, s': State)
    requires Inv(s) && Next(s, s')
    ensures s.tag <= s'.tag
    ensures s'.tag == s.tag ==> SameList(s, s')
  {
    var a :| Enabled(s, a) && s' == Do(s, a);
    if a.Go? { assert ThreadOk(s, a.t); }
  }

  /** Why the tag defeats ABA: between two moments with the same tag, however far apart, neither the
      list nor any link on it has changed. */
  lemma {:induction false} SameTagSameList(r: seq<State>, i: nat, k: nat)
    requires IsRun(Init, Next, r) && i <= k < |r|
    ensures r[i].tag <= r[k].tag
    ensures r[i].tag == r[k].tag ==> SameList(r[i], r[k])
    decreases k
  {
    Reachable(r);
    if i < k {
      SameTagSameList(r, i, k - 1);
      StepAt(Init, Next, r, k);
      TagMovesWithList(r[k - 1], r[k]);
    }
  }

  /** A pop that wins its CAS detaches the first min(want, length) slots of the list as it is at that
      moment, and a push that wins prepends its batch in order; a lost CAS changes nothing shared. */
  lemma CasEffect(r: seq<State>, i: nat, t: nat)
    requires IsRun(Init, Next, r) && i < |r| && Enabled(r[i], Go(t))
    ensures r[i].threads[t].PopCas? && GoStep(r[i], t).tag != r[i].tag ==>
              var n := if r[i].threads[t].want <= |r[i].free| then r[i].threads[t].want else |r[i].free|;
              && n > 0
              && GoStep(r[i], t).free == r[i].free[n..]
              && GoStep(r[i], t).threads[t] == Collect(r[i].free[..n], [], r[i].head)
    ensures r[i].threads[t].PushCas? && GoStep(r[i], t).tag != r[i].tag ==>
              GoStep(r[i], t).free == r[i].threads[t].batch + r[i].free
    ensures GoStep(r[i], t).tag == r[i].tag ==> SameList(r[i], GoStep(r[i], t)) && GoStep(r[i], t).owner == r[i].owner
  {
    Reachable(r);
    assert ThreadOk(r[i], t);
    TagMovesWithList(r[i], Do(r[i], Go(t)));
  }

  /** What a finished pop hands to its caller is exactly what it detached, all of it owned by the caller
      and by nobody else, however long other threads kept the list busy meanwhile. */
  lemma PopReturnsWhatItDetached(r: seq<State>, i: nat, t: nat)
    requires IsRun(Init, Next, r) && i < |r|
    requires t < |r[i].threads| && r[i].threads[t].Collect? && |r[i].threads[t].out| >= |r[i].threads[t].path|
    ensures r[i].threads[t].out == r[i].threads[t].path
    ensures HeldAll(r[i].owner, t, r[i].threads[t].out)
    ensures forall x :: x in r[i].threads[t].out ==> x !in r[i].free
  {
    Reachable(r);
    assert ThreadOk(r[i], t);
  }
}
