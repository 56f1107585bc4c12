/** A task group over a pool: submits, wrapper completions, cancels, one waiter and `destroy`, in every
    interleaving.  Steps: each critical section of the group lock, each pool transition of a task, and inside a
    cancel each single `loom_pool_cancel_by_id`.  The pool cancels a task with OK only while it is queued, and may
    refuse even then (after a shutdown). */
module TaskGroup {
  import opened Collections
  import opened Runs
  import opened Codes

  datatype Phase =
    | Queued
    | Running
    | FnDone                 // the user's function returned; the wrapper is about to lock
    | Dropped                // pending decremented, lock released; ctx not yet freed
    | Over                   // ctx freed by the wrapper
    | Cancelled              // ctx freed by the canceller; the wrapper never runs

  /** `appended`: linked into the group and counted; `frees`: how often its ctx was freed. */
  datatype Task = Task(phase: Phase, appended: bool, frees: nat)

  /** Who holds the group lock across several steps. */
  datatype Holder = Free | Appending(t: nat) | Sweeping(left: seq<nat>, destroying: bool)

  datatype Zeroed = Never | ByWrapper | ByCancel

  datatype Sleeper = Outside | Asleep(signalled: bool) | Returned(rc: Rc)

  /** `zeroed` is history: what kind of decrement last took `pending` to zero. */
  datatype State = State(
    tasks: seq<Task>,
    tracked: seq<nat>,
    pending: int,
    destroyed: bool,
    freed: bool,             // the group's memory was released
    holder: Holder,
    waiter: Sleeper,         // loom_task_group_wait
    destroyer: Sleeper,      // loom_task_group_destroy, past its sweep
    zeroed: Zeroed)

  datatype Step =
    | Submit                 // the pool accepts the wrapper, under the group lock
    | Append
    | Start(t: nat)
    | Finish(t: nat)
    | Drop(t: nat)           // the wrapper's critical section
    | FreeCtx(t: nat)
    | Sweep(destroying: bool)
    | CancelOne(ok: bool)    // ok: what the pool answers for a queued task
    | SweepEnd
    | Wait                   // the waiter tests pending: on entry, on a signal or spuriously
    | TimeOut
    | DestroyWake

  predicate Enabled(s: State, a: Step)
  {
    match a
    case Submit => s.holder.Free? && !s.destroyed && !s.freed
    case Append => s.holder.Appending? && s.holder.t < |s.tasks|
    case Start(t) => t < |s.tasks| && s.tasks[t].phase.Queued?
    case Finish(t) => t < |s.tasks| && s.tasks[t].phase.Running?
    case Drop(t) => t < |s.tasks| && s.tasks[t].phase.FnDone? && s.holder.Free?
    case FreeCtx(t) => t < |s.tasks| && s.tasks[t].phase.Dropped?
    case Sweep(destroying) => s.holder.Free? && !s.freed && (destroying ==> !s.destroyed)
    case CancelOne(_) => s.holder.Sweeping? && s.holder.left != [] && s.holder.left[0] < |s.tasks|
    case SweepEnd => s.holder.Sweeping? && s.holder.left == []
    case Wait => s.holder.Free? && !s.freed && !s.waiter.Returned?
    case TimeOut => s.waiter.Asleep?
    case DestroyWake => s.holder.Free? && s.destroyer.Asleep?
  }

  function Set(s: State, t: nat, x: Task): State
    requires t < |s.tasks|
  {
    s.(tasks := s.tasks[t := x])
  }

  function Woken(z: Sleeper): Sleeper
  {
    if z.Asleep? then Asleep(true) else z
  }

  /** The wrapper's critical section: broadcast when the count reaches zero. */
  function DropStep(s: State, t: nat): State
    requires t < |s.tasks|
  {
    var s1 := Set(s, t, s.tasks[t].(phase := Dropped)).(pending := s.pending - 1);
    if s1.pending == 0 then s1.(waiter := Woken(s.waiter), destroyer := Woken(s.destroyer), zeroed := ByWrapper) else s1
  }

  /** `task_group_cancel_node`: no broadcast. */
  function CancelStep(s: State, t: nat, ok: bool): State
    requires t < |s.tasks|
  {
    var x := s.tasks[t];
    if x.phase.Queued? && ok then
      Set(s, t, x.(phase := Cancelled, frees := x.frees + 1))
        .(pending := s.pending - 1, zeroed := if s.pending == 1 then ByCancel else s.zeroed)
    else s
  }

  /** destroy's loop: sleep while tasks are pending, then release the group. */
  function DestroyTest(s: State): State
  {
    if s.pending > 0 then s.(destroyer := Asleep(false)) else s.(destroyer := Returned(OK), freed := true)
  }

  function Do(s: State, a: Step): State
    requires Enabled(s, a)
  {
    match a
    case Submit => s.(tasks := s.tasks + [Task(Queued, false, 0)], holder := Appending(|s.tasks|))
    case Append =>
      var t := s.holder.t;
      Set(s, t, s.tasks[t].(appended := true)).(tracked := s.tracked + [t], pending := s.pending + 1, holder := Free)
    case Start(t) => Set(s, t, s.tasks[t].(phase := Running))
    case Finish(t) => Set(s, t, s.tasks[t].(phase := FnDone))
    case Drop(t) => DropStep(s, t)
    case FreeCtx(t) => Set(s, t, s.tasks[t].(phase := Over, frees := s.tasks[t].frees + 1))
    case Sweep(destroying) => s.(holder := Sweeping(s.tracked, destroying), destroyed := s.destroyed || destroying)
    case CancelOne(ok) => CancelStep(s, s.holder.left[0], ok).(holder := s.holder.(left := s.holder.left[1..]))
    case SweepEnd =>
      var s1 := s.(tracked := [], holder := Free);
      if s.holder.destroying then DestroyTest(s1) else s1
    case Wait => s.(waiter := if s.pending > 0 then Asleep(false) else Returned(OK))
    case TimeOut => s.(waiter := Returned(TIMEOUT))
    case DestroyWake => DestroyTest(s)
  }

  predicate Init(s: State)
  {
    && s.tasks == [] && s.tracked == [] && s.pending == 0 && !s.destroyed && !s.freed
    && s.holder.Free? && s.waiter.Outside? && s.destroyer.Outside? && s.zeroed.Never?
  }

  ghost predicate Next(s: State, s': State)
  {
    exists a :: Enabled(s, a) && s' == Do(s, a)
  }

  // ---------------------------------------------------------------- invariant

  /** Submitted and neither completed nor cancelled. */
  predicate Open(x: Task)
  {
    x.appended && !x.phase.Dropped? && !x.phase.Over? && !x.phase.Cancelled?
  }

  ghost predicate TaskOk(s: State, t: nat)
    requires t < |s.tasks|
  {
    var x := s.tasks[t];
    && x.frees == (if x.phase.Over? || x.phase.Cancelled? then 1 else 0)
    && (!x.appended ==> s.holder == Appending(t) && (x.phase.Queued? || x.phase.Running? || x.phase.FnDone?))
  }

  /** A listed task was counted. */
  ghost predicate ListOk(s: State, xs: seq<nat>)
  {
    Distinct(xs) && forall k :: 0 <= k < |xs| ==> xs[k] < |s.tasks| && s.tasks[xs[k]].appended
  }

  /** destroy is past its own sweep. */
  predicate Draining(s: State)
  {
    s.destroyed && !(s.holder.Sweeping? && s.holder.destroying)
  }

  ghost predicate HolderOk(s: State)
  {
    match s.holder
    case Free => true
    case Appending(t) => t < |s.tasks| && !s.tasks[t].appended && !s.destroyed && t !in s.tracked
    case Sweeping(left, destroying) => ListOk(s, left) && !s.freed && (destroying ==> s.destroyed)
  }

  ghost predicate DestroyOk(s: State)
  {
    && (Draining(s) <==> !s.destroyer.Outside?)
    && (Draining(s) ==> s.tracked == [] && (s.holder.Sweeping? ==> s.holder.left == []))
    && (s.destroyer.Outside? || s.destroyer.Asleep? || s.destroyer == Returned(OK))
    && (s.freed <==> s.destroyer == Returned(OK)) && (s.freed ==> s.pending == 0)
  }

  ghost predicate SleepOk(s: State)
  {
    && (s.destroyer == Asleep(false) ==> s.pending > 0)
    && (s.waiter == Asleep(false) ==> s.pending > 0 || s.zeroed.ByCancel?)
  }

  ghost predicate Inv(s: State)
  {
    && s.pending == NumberOf(s.tasks, Open)
    && (forall t {:trigger TaskOk(s, t)} :: 0 <= t < |s.tasks| ==> TaskOk(s, t))
    && ListOk(s, s.tracked) && HolderOk(s) && DestroyOk(s) && SleepOk(s)
  }

  // ---------------------------------------------------------------- proof

  lemma ListFrame(s: State, s': State, xs: seq<nat>)
    requires ListOk(s, xs) && |s.tasks| <= |s'.tasks|
    requires forall t :: 0 <= t < |s.tasks| ==> (s.tasks[t].appended ==> s'.tasks[t].appended)
    ensures ListOk(s', xs)
  {
  }

  lemma StepTask(s: State, a: Step)
    requires Inv(s) && Enabled(s, a) && (a.Start? || a.Finish? || a.Drop? || a.FreeCtx?)
    ensures Inv(Do(s, a))
  {
    var s', t := Do(s, a), a.t;
    assert TaskOk(s, t);
    NumberUpdate(s.tasks, Open, t, s'.tasks[t]);
    forall u | 0 <= u < |s.tasks| ensures TaskOk(s', u) { assert TaskOk(s, u); }
    ListFrame(s, s', s.tracked);
    if s.holder.Sweeping? { ListFrame(s, s', s.holder.left); }
  }

  lemma StepSubmit(s: State)
    requires Inv(s) && Enabled(s, Submit)
    ensures Inv(Do(s, Submit))
  {
    var s' := Do(s, Submit);
    assert s'.tasks[..|s.tasks|] == s.tasks;
    forall u | 0 <= u < |s'.tasks| ensures TaskOk(s', u) { assert u < |s.tasks| ==> TaskOk(s, u); }
    ListFrame(s, s', s.tracked);
  }

  lemma StepAppend(s: State)
    requires Inv(s) && Enabled(s, Append)
    ensures Inv(Do(s, Append))
  {
    var s', t := Do(s, Append), s.holder.t;
    assert TaskOk(s, t);
    NumberUpdate(s.tasks, Open, t, s'.tasks[t]);
    forall u | 0 <= u < |s.tasks| ensures TaskOk(s', u) { assert TaskOk(s, u); }
    ListFrame(s, s', s.tracked);
  }

  lemma StepCancel(s: State, ok: bool)
    requires Inv(s) && Enabled(s, CancelOne(ok))
    ensures Inv(Do(s, CancelOne(ok)))
  {
    var s', t := Do(s, CancelOne(ok)), s.holder.left[0];
    assert TaskOk(s, t);
    NumberUpdate(s.tasks, Open, t, s'.tasks[t]);
    assert s.tasks[t := s.tasks[t]] == s.tasks;
    forall u | 0 <= u < |s.tasks| ensures TaskOk(s', u) { assert TaskOk(s, u); }
    ListFrame(s, s', s.tracked);
    ListFrame(s, s', s.holder.left);
  }

  lemma StepOther(s: State, a: Step)
    requires Inv(s) && Enabled(s, a) && (a.Sweep? || a.SweepEnd? || a.Wait? || a.TimeOut? || a.DestroyWake?)
    ensures Inv(Do(s, a))
  {
    var s' := Do(s, a);
    forall u | 0 <= u < |s.tasks| ensures TaskOk(s', u) { assert TaskOk(s, u); }
    ListFrame(s, s', s.tracked);
  }

  lemma InvStep(s: State, s': State)
    requires Inv(s) && Next(s, s')
    ensures Inv(s')
  {
    var a :| Enabled(s, a) && s' == Do(s, a);
    match a
    case Submit => StepSubmit(s);
    case Append => StepAppend(s);
    case CancelOne(ok) => StepCancel(s, ok);
    case Start(_) => StepTask(s, a);
    case Finish(_) => StepTask(s, a);
    case Drop(_) => StepTask(s, a);
    case FreeCtx(_) => StepTask(s, a);
    case _ => StepOther(s, a);
  }

  lemma Reachable(r: seq<State>)
    requires IsRun(Init, Next, r)
    ensures forall i :: 0 <= i < |r| ==> Inv(r[i])
  {
    forall s, s' | Inv(s) && Next(s, s') ensures Inv(s') { InvStep(s, s'); }
    RunKeeps(Init, Next, Inv, r);
  }

  // ---------------------------------------------------------------- theorems

  /** `pending` is the number of tasks submitted to the group that neither completed nor were cancelled. */
  lemma PendingCountsOpen(r: seq<State>, k: nat)
    requires IsRun(Init, Next, r) && k < |r|
    ensures r[k].pending == |set t | 0 <= t < |r[k].tasks| && Open(r[k].tasks[t])|
  {
    Reachable(r);
    NumberSet(r[k].tasks, Open);
    assert Those(r[k].tasks, Open) == set t | 0 <= t < |r[k].tasks| && Open(r[k].tasks[t]);
  }

  /** It never underflows: whoever decrements it finds it positive. */
  lemma DecrementFindsOne(r: seq<State>, k: nat, a: Step)
    requires IsRun(Init, Next, r) && k < |r| && Enabled(r[k], a)
    ensures Do(r[k], a).pending < r[k].pending ==> r[k].pending >= 1 && Do(r[k], a).pending >= 0
    ensures a.Drop? ==> r[k].pending >= 1
  {
    Reachable(r);
    var s := r[k];
    if a.Drop? {
      assert TaskOk(s, a.t);
      NumberUpdate(s.tasks, Open, a.t, s.tasks[a.t]);
    } else if a.CancelOne? {
      assert TaskOk(s, s.holder.left[0]);
      NumberUpdate(s.tasks, Open, s.holder.left[0], s.tasks[s.holder.left[0]]);
    }
  }

  /** Every wrapper context is freed at most once, and exactly once when its task is over. */
  lemma CtxFreedOnce(r: seq<State>, k: nat, t: nat)
    requires IsRun(Init, Next, r) && k < |r| && t < |r[k].tasks|
    ensures r[k].tasks[t].frees == if r[k].tasks[t].phase.Over? || r[k].tasks[t].phase.Cancelled? then 1 else 0
  {
    Reachable(r);
    assert TaskOk(r[k], t);
  }

  /** When destroy releases the group, no wrapper is left that could still lock or decrement it. */
  lemma FreedAfterLastWrapper(r: seq<State>, k: nat, t: nat)
    requires IsRun(Init, Next, r) && k < |r| && t < |r[k].tasks| && r[k].freed
    ensures r[k].tasks[t].phase.Dropped? || r[k].tasks[t].phase.Over? || r[k].tasks[t].phase.Cancelled?
    ensures r[k].tracked == [] && r[k].holder.Free?
  {
    Reachable(r);
    assert TaskOk(r[k], t);
    NumberUpdate(r[k].tasks, Open, t, r[k].tasks[t]);
  }

  /** destroy never sleeps on with nothing pending; a waiter does so only if a cancel took the count to zero. */
  lemma StrandedOnlyByCancel(r: seq<State>, k: nat)
    requires IsRun(Init, Next, r) && k < |r| && r[k].pending == 0
    ensures r[k].destroyer != Asleep(false)
    ensures r[k].waiter == Asleep(false) ==> r[k].zeroed.ByCancel?
  {
    Reachable(r);
  }

  /** The waiter sleeps unsignalled with nothing pending. */
  predicate Stranded(s: State)
  {
    s.waiter == Asleep(false) && s.pending == 0
  }

  /** The last open task is cancelled under a sleeping waiter. */
  predicate CancelsLast(s: State, a: Step)
    requires Enabled(s, a)
  {
    && a.CancelOne? && a.ok && s.tasks[s.holder.left[0]].phase.Queued?
    && s.pending == 1 && s.waiter == Asleep(false)
  }

  /** The waiter times out or tests the count again, or a new task is counted. */
  predicate Rouses(a: Step)
  {
    a.TimeOut? || a.Wait? || a.Append?
  }

  lemma StrandedStep(s: State, a: Step)
    requires Inv(s) && Enabled(s, a)
    ensures Stranded(Do(s, a)) <==> CancelsLast(s, a) || (Stranded(s) && !Rouses(a))
  {
    if a.Drop? {
      assert TaskOk(s, a.t);
      NumberUpdate(s.tasks, Open, a.t, s.tasks[a.t]);
    } else if a.CancelOne? {
      assert TaskOk(s, s.holder.left[0]);
      NumberUpdate(s.tasks, Open, s.holder.left[0], s.tasks[s.holder.left[0]]);
    }
  }

  /** Along every run a waiter is stranded by exactly one kind of step ... */
  lemma StrandedByIff(r: seq<State>, k: nat, a: Step)
    requires IsRun(Init, Next, r) && k < |r| && Enabled(r[k], a) && !Stranded(r[k])
    ensures Stranded(Do(r[k], a)) <==> CancelsLast(r[k], a)
  {
    Reachable(r);
    StrandedStep(r[k], a);
  }

  /** ... and a stranded waiter is roused by exactly three. */
  lemma RousedByIff(r: seq<State>, k: nat, a: Step)
    requires IsRun(Init, Next, r) && k < |r| && Enabled(r[k], a) && Stranded(r[k])
    ensures !Stranded(Do(r[k], a)) <==> Rouses(a)
  {
    Reachable(r);
    StrandedStep(r[k], a);
  }

  ghost predicate LastCancelled(s: State, s': State)
  {
    exists a :: Enabled(s, a) && CancelsLast(s, a) && s' == Do(s, a)
  }

  ghost predicate Roused(s: State, s': State)
  {
    exists a :: Enabled(s, a) && Rouses(a) && s' == Do(s, a)
  }

  lemma StrandedGoverned(s: State, s': State)
    requires Inv(s) && Next(s, s')
    ensures Inv(s') && Governs(LastCancelled, Roused, Stranded, s, s')
  {
    InvStep(s, s');
    var a :| Enabled(s, a) && s' == Do(s, a);
    StrandedStep(s, a);
    if LastCancelled(s, s') {
      var b :| Enabled(s, b) && CancelsLast(s, b) && s' == Do(s, b);
      StrandedStep(s, b);
    } else if Roused(s, s') {
      var b :| Enabled(s, b) && Rouses(b) && s' == Do(s, b);
      StrandedStep(s, b);
    }
  }

  /** In every reachable state a waiter sleeps on with nothing pending if and only if a cancel made the last
      decrement and no step has roused it since. */
  lemma LastDecrementWakesIff(r: seq<State>, k: nat)
    requires IsRun(Init, Next, r) && k < |r|
    ensures Stranded(r[k]) <==> exists i :: Since(LastCancelled, Roused, r, i, k)
  {
    forall s, s' | Inv(s) && Next(s, s') ensures Inv(s') && Governs(LastCancelled, Roused, Stranded, s, s') {
      StrandedGoverned(s, s');
    }
    HoldsIffSince(Init, Next, Inv, Stranded, LastCancelled, Roused, r, k);
  }

  lemma Took(r: seq<State>, a: Step, s': State) returns (r': seq<State>)
    requires IsRun(Init, Next, r) && Enabled(r[|r| - 1], a) && s' == Do(r[|r| - 1], a)
    ensures IsRun(Init, Next, r') && r'[|r'| - 1] == s'
  {
    r' := r + [s'];
    assert Next(r[|r| - 1], s');
    Extended(Init, Next, r, s');
  }

  /** It happens: the only task is cancelled while the waiter sleeps, and nothing is left that would wake it. */
  lemma CancelStrandsWaiter() returns (r: seq<State>)
    ensures IsRun(Init, Next, r)
    ensures var s := r[|r| - 1];
            s.waiter == Asleep(false) && s.pending == 0 && s.holder.Free? && s.tasks == [Task(Cancelled, true, 1)]
  {
    var s0 := State([], [], 0, false, false, Free, Outside, Outside, Never);
    var s1 := s0.(tasks := [Task(Queued, false, 0)], holder := Appending(0));
    r := Took([s0], Submit, s1);
    var s2 := s1.(tasks := [Task(Queued, true, 0)], tracked := [0], pending := 1, holder := Free);
    r := Took(r, Append, s2);
    var s3 := s2.(waiter := Asleep(false));
    r := Took(r, Wait, s3);
    var s4 := s3.(holder := Sweeping([0], false));
    r := Took(r, Sweep(false), s4);
    var s5 := s4.(tasks := [Task(Cancelled, true, 1)], pending := 0, zeroed := ByCancel, holder := Sweeping([], false));
    assert s4.holder.left[1..] == [];
    r := Took(r, CancelOne(true), s5);
    r := Took(r, SweepEnd, s5.(tracked := [], holder := Free));
  }
}
