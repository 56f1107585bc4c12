/** Sleeping and waking of the workers: `worker_entry`'s scan and exit test against lock-free ring producers, lane
    submitters, spills and the threads that make coroutines ready, with the counting semaphore `work_sem`.
    Tasks are anonymous here.  Steps: each atomic access and each critical section; a worker's pass is split
    wherever another thread can interfere. */
module Wakeup {
  import opened Collections
  import opened Runs

  /** A worker.  It holds the pool lock from `Resume` to `Commit`. */
  datatype Worker =
    | Top                      // about to lock
    | Resume                   // step C0: its own ready FIFO
    | Test                     // exit test: shutdown and queue_len
    | Test2                    // exit test: ring_count and deque_total
    | Test3                    // exit test: timer heap and own ready FIFO
    | Scan0                    // urgent lanes
    | Scan1                    // own deque
    | Scan2                    // ring batch
    | Scan3                    // steal
    | Scan4                    // remaining lanes
    | Commit                   // has a task, still locked
    | Running                  // a task or a coroutine
    | Sleepy                   // found nothing, unlocked, about to look at shutdown
    | Blocked                  // in sem_wait
    | Exited

  /** A submitter of the ring path. */
  datatype Submitter =
    | Idle
    | Claiming                 // past the shutdown check
    | Storing(pos: nat)        // claimed, not yet published
    | Tallying                 // published; ring_count not yet incremented
    | Spilling                 // the ring refused
    | Posting                  // tallied, or queued in the lane; work_sem not yet posted

  datatype Lock = Free | Held(w: nat)

  /** A ring position: who claimed it and whether it was published. */
  datatype Cell = Cell(producer: nat, ready: bool)

  /** Ring positions below `head` were taken.  `fifos` and `timers` are the numbers of coroutines in each
      worker's ready FIFO and of each worker's coroutines in the timer heap; `pushers` are the threads (timer,
      cancellers) that have pushed a ready node and not yet posted. */
  datatype State = State(
    ringSize: nat,
    cells: seq<Cell>,
    head: nat,
    ringCount: int,
    deques: seq<nat>,
    fifos: seq<nat>,
    timers: seq<nat>,
    pushers: nat,
    urgent: nat,
    normal: nat,
    tokens: nat,
    shutdown: bool,
    lock: Lock,
    workers: seq<Worker>,
    submitters: seq<Submitter>)

  predicate IsReady(c: Cell)
  {
    c.ready
  }

  predicate IsTallying(i: Submitter)
  {
    i.Tallying?
  }

  predicate IsBlocked(w: Worker)
  {
    w.Blocked?
  }

  /** `ring_has_work` */
  predicate HeadReady(s: State)
  {
    s.head < |s.cells| && s.cells[s.head].ready
  }

  predicate BatchReady(s: State, n: nat)
  {
    0 < n <= BATCH && s.head + n <= |s.cells| && forall p :: s.head <= p < s.head + n ==> s.cells[p].ready
  }

  predicate AllZero(xs: seq<nat>)
  {
    forall i :: 0 <= i < |xs| ==> xs[i] == 0
  }

  predicate LanesEmpty(s: State)
  {
    s.urgent == 0 && s.normal == 0
  }

  predicate Sized(s: State)
  {
    |s.deques| == |s.workers| == |s.fifos| == |s.timers| && s.head <= |s.cells|
  }

  datatype Step =
    | Begin(i: nat)                  // the shutdown check passes
    | Claim(i: nat)
    | Refuse(i: nat)
    | Publish(i: nat)
    | Tally(i: nat)
    | Spill(i: nat)
    | Reject(i: nat)                 // the spill finds shutdown or a full queue
    | Post(i: nat)
    | LaneSubmit(urgent: bool)       // a lane submission posts inside its critical section
    | CancelLane(urgent: bool)
    | Ready(w: nat)                  // a coroutine of worker w moves from the timer heap to its FIFO
    | PostReady
    | Shutdown                       // sets the flag and posts one token per worker
    | Go(w: nat, n: nat, victim: nat) // next action of worker w; n: batch size or outcome, victim: whom the steal finds
    | Fail(w: nat)                   // the weak compare-and-swap of a batch claim fails spuriously
    | Leave(w: nat)                  // the exit test succeeded

  ghost predicate Enabled(s: State, a: Step)
  {
    && Sized(s)
    && match a
       case Begin(i) => i < |s.submitters| && s.submitters[i].Idle? && !s.shutdown
       case Claim(i) => i < |s.submitters| && s.submitters[i].Claiming? && |s.cells| < s.head + s.ringSize
       case Refuse(i) => i < |s.submitters| && s.submitters[i].Claiming?
       case Publish(i) => i < |s.submitters| && s.submitters[i].Storing? && s.submitters[i].pos < |s.cells|
       case Tally(i) => i < |s.submitters| && s.submitters[i].Tallying?
       case Spill(i) => i < |s.submitters| && s.submitters[i].Spilling? && s.lock.Free? && !s.shutdown
       case Reject(i) => i < |s.submitters| && s.submitters[i].Spilling? && s.lock.Free?
       case Post(i) => i < |s.submitters| && s.submitters[i].Posting?
       case LaneSubmit(_) => s.lock.Free? && !s.shutdown
       case CancelLane(u) => s.lock.Free? && (if u then s.urgent > 0 else s.normal > 0)
       case Ready(w) => w < |s.workers| && s.timers[w] > 0
       case PostReady => s.pushers > 0
       case Shutdown => s.lock.Free?
       case Go(w, n, victim) => w < |s.workers| && CanGo(s, w, n, victim)
       case Fail(w) => w < |s.workers| && s.workers[w].Scan2? && HeadReady(s)
       case Leave(w) => w < |s.workers| && s.workers[w].Test3? && AllZero(s.timers) && s.fifos[w] == 0
  }

  ghost predicate CanGo(s: State, w: nat, n: nat, victim: nat)
    requires Sized(s) && w < |s.workers|
  {
    match s.workers[w]
    case Top => s.lock.Free?
    case Test3 => !(AllZero(s.timers) && s.fifos[w] == 0)
    case Scan2 => HeadReady(s) ==> BatchReady(s, n)
    case Scan3 =>
      || (victim < |s.workers| && victim != w && s.deques[victim] > 0)
      || HeadReady(s) || forall v :: 0 <= v < |s.workers| && v != w ==> s.deques[v] == 0
    case Blocked => s.tokens > 0
    case Exited => false
    case _ => true
  }

  predicate Alive(w: Worker)
  {
    !w.Exited?
  }

  /** The worker finds a task, or sees shutdown before it sleeps. */
  predicate Finds(s: State, w: nat, n: nat, victim: nat)
    requires Sized(s) && w < |s.workers|
  {
    match s.workers[w]
    case Scan0 => s.urgent > 0
    case Scan1 => s.deques[w] > 0
    case Scan2 => HeadReady(s) && n > 0
    case Scan3 => victim < |s.workers| && victim != w && s.deques[victim] > 0
    case Scan4 => !HeadReady(s) && !LanesEmpty(s)
    case Sleepy => s.shutdown
    case _ => false
  }

  function Sub(s: State, i: nat, pc: Submitter): State
    requires i < |s.submitters|
  {
    s.(submitters := s.submitters[i := pc])
  }

  function Move(s: State, w: nat, pc: Worker): State
    requires w < |s.workers|
  {
    s.(workers := s.workers[w := pc])
  }

  function Take(s: State, w: nat, d: nat, left: nat): State
    requires w < |s.workers| && d < |s.deques|
  {
    Move(s, w, Commit).(deques := s.deques[d := left])
  }

  predicate Scans(w: Worker)
  {
    w.Scan0? || w.Scan1? || w.Scan2? || w.Scan3? || w.Scan4?
  }

  /** What a move of worker w leaves alone. */
  ghost predicate Kept(s: State, s': State, w: nat)
  {
    && Sized(s') && w < |s.workers| == |s'.workers| && s'.workers == s.workers[w := s'.workers[w]]
    && s'.pushers == s.pushers && s'.submitters == s.submitters && s'.cells == s.cells && s'.shutdown == s.shutdown
    && s.head <= s'.head && s'.head - s.head == s.ringCount - s'.ringCount
    && forall p :: s.head <= p < s'.head ==> s.cells[p].ready
  }

  /** One step of the scan; it ends in `Commit` exactly if a task is found. */
  function ScanStep(s: State, w: nat, n: nat, victim: nat): (s': State)
    requires Sized(s) && w < |s.workers| && CanGo(s, w, n, victim) && Scans(s.workers[w])
    ensures Kept(s, s', w) && s'.tokens == s.tokens
    ensures s'.workers[w].Commit? <==> Finds(s, w, n, victim)
    ensures s'.workers[w].Commit? || s'.workers[w].Sleepy? || Scans(s'.workers[w])
  {
    match s.workers[w]
    case Scan0 => if s.urgent > 0 then Move(s, w, Commit).(urgent := s.urgent - 1) else Move(s, w, Scan1)
    case Scan1 => if s.deques[w] > 0 then Take(s, w, w, s.deques[w] - 1) else Move(s, w, Scan2)
    case Scan2 =>
      if HeadReady(s) && n > 0 then Take(s, w, w, n - 1).(head := s.head + n, ringCount := s.ringCount - n)
      else Move(s, w, Scan3)
    case Scan3 => if Finds(s, w, n, victim) then Take(s, w, victim, s.deques[victim] - 1) else Move(s, w, Scan4)
    case Scan4 =>
      if !Finds(s, w, n, victim) then Move(s, w, Sleepy).(lock := Free)
      else if s.urgent > 0 then Move(s, w, Commit).(urgent := s.urgent - 1)
      else Move(s, w, Commit).(normal := s.normal - 1)
  }

  /** The next action of worker w; it takes a token only at the end of a wait. */
  function GoStep(s: State, w: nat, n: nat, victim: nat): (s': State)
    requires Sized(s) && w < |s.workers| && CanGo(s, w, n, victim)
    ensures Kept(s, s', w) && Alive(s'.workers[w])
    ensures s'.tokens == if s.workers[w].Blocked? then s.tokens - 1 else s.tokens
    ensures s'.workers[w].Blocked? ==> s.workers[w].Sleepy? && !s.shutdown
  {
    if Scans(s.workers[w]) then ScanStep(s, w, n, victim)
    else match s.workers[w]
    case Top => Move(s, w, Resume).(lock := Held(w))
    case Resume =>
      if s.fifos[w] > 0 then Move(s, w, Running).(fifos := s.fifos[w := s.fifos[w] - 1], lock := Free)
      else Move(s, w, Test)
    case Test => Move(s, w, if s.shutdown && LanesEmpty(s) && n > 0 then Test2 else Scan0)  // n > 0: queue_len is 0
    case Test2 => Move(s, w, if s.ringCount == 0 && AllZero(s.deques) then Test3 else Scan0)
    case Test3 => Move(s, w, Scan0)
    case Commit => Move(s, w, if n == 0 then Top else Running).(lock := Free)   // n == 0: the task was cancelled
    case Running =>
      // n == 1: a suspended coroutine goes to the tail of the worker's own FIFO, without a post; n > 1: it sleeps
      Move(s, w, Top).(fifos := if n == 1 then s.fifos[w := s.fifos[w] + 1] else s.fifos,
                       timers := if n > 1 then s.timers[w := s.timers[w] + 1] else s.timers)
    case Sleepy => Move(s, w, if s.shutdown then Top else Blocked)
    case Blocked => Move(s, w, Top).(tokens := s.tokens - 1)
  }

  function Do(s: State, a: Step): State
    requires Enabled(s, a)
  {
    match a
    case Begin(i) => Sub(s, i, Claiming)
    case Claim(i) => Sub(s, i, Storing(|s.cells|)).(cells := s.cells + [Cell(i, false)])
    case Refuse(i) => Sub(s, i, Spilling)
    case Publish(i) => Sub(s, i, Tallying).(cells := s.cells[s.submitters[i].pos := Cell(i, true)])
    case Tally(i) => Sub(s, i, Posting).(ringCount := s.ringCount + 1)
    case Spill(i) => Sub(s, i, Posting).(normal := s.normal + 1)
    case Reject(i) => Sub(s, i, Idle)
    case Post(i) => Sub(s, i, Idle).(tokens := s.tokens + 1)
    case LaneSubmit(u) =>
      if u then s.(urgent := s.urgent + 1, tokens := s.tokens + 1)
      else s.(normal := s.normal + 1, tokens := s.tokens + 1)
    case CancelLane(u) => if u then s.(urgent := s.urgent - 1) else s.(normal := s.normal - 1)
    case Ready(w) =>
      s.(timers := s.timers[w := s.timers[w] - 1], fifos := s.fifos[w := s.fifos[w] + 1], pushers := s.pushers + 1)
    case PostReady => s.(pushers := s.pushers - 1, tokens := s.tokens + 1)
    case Shutdown => s.(shutdown := true, tokens := s.tokens + |s.workers|)
    case Go(w, n, victim) => GoStep(s, w, n, victim)
    case Fail(w) => Move(s, w, Scan3)
    case Leave(w) => Move(s, w, Exited).(lock := Free)
  }

  ghost predicate Init(s: State)
  {
    && s.cells == [] && s.head == 0 && s.ringCount == 0 && s.urgent == 0 && s.normal == 0 && s.tokens == 0
    && !s.shutdown && s.lock.Free? && s.pushers == 0 && Sized(s) && |s.workers| > 0
    && AllZero(s.deques) && AllZero(s.fifos) && AllZero(s.timers)
    && (forall w :: 0 <= w < |s.workers| ==> s.workers[w].Top?)
    && (forall i :: 0 <= i < |s.submitters| ==> s.submitters[i].Idle?)
  }

  ghost predicate Next(s: State, s': State)
  {
    exists a :: Enabled(s, a) && s' == Do(s, a)
  }

  // ---------------------------------------------------------------- invariant

  /** Will look at the ring before it can sleep or leave. */
  predicate WillScanRing(w: Worker)
  {
    !w.Scan3? && !w.Scan4? && !w.Sleepy? && !w.Blocked? && !w.Exited?
  }

  /** Will look at the lanes before it can sleep, unless the ring has work. */
  predicate WillScanLanes(w: Worker)
  {
    !w.Sleepy? && !w.Blocked? && !w.Exited?
  }

  /** Has published or queued a task and will post. */
  predicate WillPost(i: Submitter)
  {
    i.Tallying? || i.Posting?
  }

  /** Apart from worker w, a wake-up is available or on its way, or some worker is still to look at the ring. */
  ghost predicate Others(s: State, w: nat)
  {
    s.tokens > 0 || Some(s.submitters, WillPost) || SomeOther(s.workers, w, WillScanRing)
  }

  predicate Locked(w: Worker)
  {
    !w.Top? && !w.Running? && !w.Sleepy? && !w.Blocked? && !w.Exited?
  }

  predicate PastOwnDeque(w: Worker)
  {
    w.Scan2? || w.Scan3? || w.Scan4? || w.Sleepy? || w.Blocked?
  }

  /** A worker that passed step 1 without a task has an empty deque; what the exit test has established; and an
      exited worker owns no coroutine. */
  ghost predicate WorkerOk(s: State, w: nat)
    requires Sized(s) && w < |s.workers|
  {
    var pc := s.workers[w];
    && (Locked(pc) <==> s.lock == Held(w))
    && (PastOwnDeque(pc) ==> s.deques[w] == 0)
    && (pc.Test2? || pc.Test3? || pc.Exited? ==> s.shutdown)
    && (pc.Test2? || pc.Test3? ==> LanesEmpty(s))
    && (pc.Test3? && HeadReady(s) ==> Others(s, w))
    && (pc.Exited? ==> s.fifos[w] == 0 && s.timers[w] == 0)
  }

  ghost predicate SubmitterOk(s: State, i: nat)
    requires i < |s.submitters|
  {
    var pc := s.submitters[i];
    pc.Storing? ==> pc.pos < |s.cells| && s.cells[pc.pos] == Cell(i, false)
  }

  /** Taken positions were published, and `ring_count` lags behind the publications by the producers still to
      tally. */
  ghost predicate RingOk(s: State)
    requires Sized(s)
  {
    && (forall p :: 0 <= p < s.head ==> s.cells[p].ready)
    && s.ringCount == NumberOf(s.cells, IsReady) - s.head - NumberOf(s.submitters, IsTallying)
  }

  /** After shutdown there is a token for every worker in sem_wait. */
  ghost predicate Covered(s: State)
  {
    s.shutdown ==> NumberOf(s.workers, IsBlocked) <= s.tokens
  }

  ghost predicate Inv(s: State)
  {
    && Sized(s) && |s.workers| > 0 && RingOk(s) && Covered(s)
    && (forall w {:trigger WorkerOk(s, w)} :: 0 <= w < |s.workers| ==> WorkerOk(s, w))
    && (forall i {:trigger SubmitterOk(s, i)} :: 0 <= i < |s.submitters| ==> SubmitterOk(s, i))
  }

  // ---------------------------------------------------------------- proof: frames

  /** No queue grows but the mover's own, and no other worker's coroutines move. */
  ghost predicate NoGrowth(s: State, s': State, w: nat)
    requires Sized(s) && Sized(s') && |s'.workers| == |s.workers|
  {
    && s'.urgent <= s.urgent && s'.normal <= s.normal
    && (forall v :: 0 <= v < |s.workers| && v != w ==> s'.deques[v] <= s.deques[v])
    && (forall v :: 0 <= v < |s.workers| && v != w ==> s'.fifos[v] == s.fifos[v] && s'.timers[v] == s.timers[v])
  }

  lemma ScanQueues(s: State, w: nat, n: nat, victim: nat)
    requires Enabled(s, Go(w, n, victim)) && Scans(s.workers[w])
    ensures NoGrowth(s, ScanStep(s, w, n, victim), w)
  {
  }

  lemma GoQueues(s: State, w: nat, n: nat, victim: nat)
    requires Enabled(s, Go(w, n, victim))
    ensures NoGrowth(s, GoStep(s, w, n, victim), w)
  {
    if Scans(s.workers[w]) { ScanQueues(s, w, n, victim); }
  }

  lemma GoLock(s: State, w: nat, n: nat, victim: nat)
    requires Enabled(s, Go(w, n, victim)) && (Locked(s.workers[w]) <==> s.lock == Held(w))
    ensures
      var s' := GoStep(s, w, n, victim);
      && (Locked(s'.workers[w]) <==> s'.lock == Held(w))
      && (Locked(s.workers[w]) || s'.lock == s.lock || (s.lock.Free? && s'.lock == Held(w)))
      && (Locked(s.workers[w]) ==> s'.lock == Held(w) || s'.lock == Free)
  {
    match s.workers[w]
    case Resume =>
    case Scan4 =>
    case _ =>
  }

  lemma WorkersKept(s: State, a: Step)
    requires Enabled(s, a)
    ensures Sized(Do(s, a)) && |Do(s, a).workers| == |s.workers|
  {
  }

  // ---------------------------------------------------------------- proof: ring, submitters, tokens

  predicate BySubmitter(a: Step)
  {
    a.Begin? || a.Claim? || a.Refuse? || a.Publish? || a.Tally? || a.Spill? || a.Reject? || a.Post?
  }

  predicate ByWorker(a: Step)
  {
    a.Go? || a.Fail? || a.Leave?
  }

  lemma SubmittersKept(s: State, a: Step)
    requires Inv(s) && Enabled(s, a) && BySubmitter(a)
    ensures var s' := Do(s, a);
            forall i {:trigger SubmitterOk(s', i)} :: 0 <= i < |s'.submitters| ==> SubmitterOk(s', i)
  {
    var s' := Do(s, a);
    forall i | 0 <= i < |s'.submitters| ensures SubmitterOk(s', i) { assert SubmitterOk(s, i) && SubmitterOk(s, a.i); }
  }

  lemma RingSubmitter(s: State, a: Step)
    requires Inv(s) && Enabled(s, a) && BySubmitter(a)
    ensures RingOk(Do(s, a))
  {
    var s' := Do(s, a);
    assert SubmitterOk(s, a.i);
    NumberUpdate(s.submitters, IsTallying, a.i, s'.submitters[a.i]);
    if a.Claim? { NumberAppend(s.cells, IsReady, Cell(a.i, false)); }
    if a.Publish? { NumberUpdate(s.cells, IsReady, s.submitters[a.i].pos, Cell(a.i, true)); }
  }

  lemma RingWorker(s: State, w: nat, n: nat, victim: nat)
    requires Inv(s) && Enabled(s, Go(w, n, victim))
    ensures RingOk(GoStep(s, w, n, victim))
  {
  }

  lemma CoveredStep(s: State, a: Step)
    requires Inv(s) && Enabled(s, a)
    ensures Covered(Do(s, a))
  {
    var s' := Do(s, a);
    NumberAtMost(s.workers, IsBlocked);
    if ByWorker(a) {
      NumberUpdate(s.workers, IsBlocked, a.w, s'.workers[a.w]);
    }
  }

  /** A published head that `ring_count` does not show has a producer still to tally, and so to post. */
  lemma HeadNotTallied(s: State)
    requires Sized(s) && RingOk(s) && HeadReady(s) && s.ringCount == 0
    ensures Some(s.submitters, WillPost)
  {
    NumberPrefix(s.cells, IsReady, s.head + 1);
    NumberPositive(s.submitters, IsTallying);
    var i :| 0 <= i < |s.submitters| && IsTallying(s.submitters[i]);
    assert WillPost(s.submitters[i]);
  }

  // ---------------------------------------------------------------- proof: workers

  /** Who was to post still is, or has. */
  lemma PostersKept(s: State, a: Step)
    requires Enabled(s, a) && BySubmitter(a)
    ensures s.tokens > 0 || Some(s.submitters, WillPost) ==> Do(s, a).tokens > 0 || Some(Do(s, a).submitters, WillPost)
    ensures a.Publish? || a.Spill? ==> Some(Do(s, a).submitters, WillPost)
    ensures !a.Publish? && !a.Spill? && !a.Post? ==>
              (Some(Do(s, a).submitters, WillPost) <==> Some(s.submitters, WillPost)) && Do(s, a).tokens == s.tokens
  {
    SomeUpdate(s.submitters, a.i, Do(s, a).submitters[a.i], WillPost);
  }

  lemma OutsideWorker(s: State, a: Step, w: nat)
    requires Inv(s) && Enabled(s, a) && !ByWorker(a) && w < |s.workers|
    ensures WorkerOk(Do(s, a), w)
  {
    assert WorkerOk(s, w);
    if BySubmitter(a) { PostersKept(s, a); }
  }

  lemma OtherWorker(s: State, a: Step, v: nat)
    requires Inv(s) && Enabled(s, a) && ByWorker(a) && v < |s.workers| && v != a.w && Sized(Do(s, a))
    ensures WorkerOk(Do(s, a), v)
  {
    var s' := Do(s, a);
    assert WorkerOk(s, v) && WorkerOk(s, a.w);
    if a.Go? {
      GoQueues(s, a.w, a.n, a.victim);
      GoLock(s, a.w, a.n, a.victim);
    }
    if s.workers[v].Test3? {
      assert !Locked(s.workers[a.w]);
      SomeOtherUpdate(s.workers, v, a.w, s'.workers[a.w], WillScanRing);
    }
  }

  lemma ScanDeque(s: State, w: nat, n: nat, victim: nat)
    requires Enabled(s, Go(w, n, victim)) && Scans(s.workers[w])
    requires PastOwnDeque(s.workers[w]) ==> s.deques[w] == 0
    ensures var s' := GoStep(s, w, n, victim); PastOwnDeque(s'.workers[w]) ==> s'.deques[w] == 0
  {
  }

  lemma OwnWorker(s: State, w: nat, n: nat, victim: nat)
    requires Inv(s) && Enabled(s, Go(w, n, victim)) && Sized(GoStep(s, w, n, victim))
    ensures WorkerOk(GoStep(s, w, n, victim), w)
  {
    assert WorkerOk(s, w);
    GoLock(s, w, n, victim);
    if Scans(s.workers[w]) { ScanDeque(s, w, n, victim); }
    else if s.workers[w].Test2? && s.ringCount == 0 && HeadReady(s) { HeadNotTallied(s); }
  }

  lemma LeavingWorker(s: State, a: Step)
    requires Inv(s) && Enabled(s, a) && (a.Fail? || a.Leave?)
    ensures WorkerOk(Do(s, a), a.w)
  {
    assert WorkerOk(s, a.w);
  }

  lemma WorkersStep(s: State, a: Step)
    requires Inv(s) && Enabled(s, a)
    ensures var s' := Do(s, a);
            Sized(s') && forall w {:trigger WorkerOk(s', w)} :: 0 <= w < |s'.workers| ==> WorkerOk(s', w)
  {
    var s' := Do(s, a);
    WorkersKept(s, a);
    forall w | 0 <= w < |s'.workers| ensures WorkerOk(s', w) {
      if !ByWorker(a) { OutsideWorker(s, a, w); }
      else if w != a.w { OtherWorker(s, a, w); }
      else if a.Go? { OwnWorker(s, w, a.n, a.victim); }
      else { LeavingWorker(s, a); }
    }
  }

  lemma RingStep(s: State, a: Step)
    requires Inv(s) && Enabled(s, a)
    ensures var s' := Do(s, a);
            && Sized(s') && RingOk(s')
            && forall i {:trigger SubmitterOk(s', i)} :: 0 <= i < |s'.submitters| ==> SubmitterOk(s', i)
  {
    var s' := Do(s, a);
    WorkersKept(s, a);
    if BySubmitter(a) {
      SubmittersKept(s, a);
      RingSubmitter(s, a);
    } else {
      if a.Go? { RingWorker(s, a.w, a.n, a.victim); }
      forall i | 0 <= i < |s'.submitters| ensures SubmitterOk(s', i) { assert SubmitterOk(s, i); }
    }
  }

  /** Every step of every thread keeps the invariant. */
  lemma InvStep(s: State, s': State)
    requires Inv(s) && Next(s, s')
    ensures Inv(s')
  {
    var a :| Enabled(s, a) && s' == Do(s, a);
    WorkersKept(s, a);
    WorkersStep(s, a);
    RingStep(s, a);
    CoveredStep(s, a);
  }

  lemma InitInv(s: State)
    requires Init(s)
    ensures Inv(s)
  {
    forall w | 0 <= w < |s.workers| ensures WorkerOk(s, w) {}
    NumberNone(s.submitters, IsTallying);
  }

  lemma InvAt(r: seq<State>, k: nat)
    requires IsRun(Init, Next, r) && k < |r|
    ensures Inv(r[k])
  {
    forall s | Init(s) ensures Inv(s) { InitInv(s); }
    forall s, s' | Inv(s) && Next(s, s') ensures Inv(s') { InvStep(s, s'); }
    RunKeeps(Init, Next, Inv, r);
  }

  // ---------------------------------------------------------------- theorems: shutdown wakes everybody

  /** After shutdown the tokens cover the workers in sem_wait, so one of them can always go on. */
  lemma TokensCoverBlocked(r: seq<State>, k: nat)
    requires IsRun(Init, Next, r) && k < |r| && r[k].shutdown
    ensures |set w | 0 <= w < |r[k].workers| && r[k].workers[w].Blocked?| <= r[k].tokens
  {
    InvAt(r, k);
    NumberSet(r[k].workers, IsBlocked);
    assert (set w | 0 <= w < |r[k].workers| && r[k].workers[w].Blocked?) == Those(r[k].workers, IsBlocked);
  }

  ghost predicate AwakeAfterShutdown(s: State, w: nat)
  {
    s.shutdown && w < |s.workers| && !s.workers[w].Blocked?
  }

  lemma AwakeStep(s: State, s': State, w: nat)
    requires Next(s, s') && AwakeAfterShutdown(s, w)
    ensures AwakeAfterShutdown(s', w)
  {
    var a :| Enabled(s, a) && s' == Do(s, a);
    WorkersKept(s, a);
  }

  /** ... and a worker that is awake after shutdown never waits again. */
  lemma NoWaitAfterShutdown(r: seq<State>, k: nat, m: nat, w: nat)
    requires IsRun(Init, Next, r) && k <= m < |r| && AwakeAfterShutdown(r[k], w)
    ensures AwakeAfterShutdown(r[m], w)
  {
    forall s, s' | AwakeAfterShutdown(s, w) && Next(s, s') ensures AwakeAfterShutdown(s', w) { AwakeStep(s, s', w); }
    RunKeepsFrom(Init, Next, (s: State) => AwakeAfterShutdown(s, w), r, k);
  }

  // ---------------------------------------------------------------- the watch over ring and lanes

  /** A wake-up is available or on its way and somebody is left to take it, or some worker is still to look. */
  ghost predicate RingWatched(s: State)
  {
    || ((s.tokens > 0 || Some(s.submitters, WillPost)) && Some(s.workers, Alive))
    || Some(s.workers, WillScanRing)
  }

  ghost predicate LanesWatched(s: State)
  {
    || ((s.tokens > 0 || Some(s.submitters, WillPost)) && Some(s.workers, Alive))
    || Some(s.workers, WillScanLanes)
  }

  /** A ready ring head and a lane entry are watched. */
  ghost predicate Watched(s: State)
  {
    (HeadReady(s) ==> RingWatched(s)) && (!LanesEmpty(s) ==> LanesWatched(s))
  }

  /** A ready ring head that nobody watches. */
  ghost predicate Unwatched(s: State)
  {
    HeadReady(s) && !RingWatched(s)
  }

  /** No token, nobody about to post, and no other worker that will still look at the ring. */
  ghost predicate Sole(s: State, w: nat)
  {
    s.tokens == 0 && !Some(s.submitters, WillPost) && !SomeOther(s.workers, w, WillScanRing)
  }

  /** The spurious failure of a batch claim by the only thread between the ring head and sleep; the last worker
      leaving while a published head is not yet tallied; a publication at the head after the last worker has
      left. */
  ghost predicate Loses(s: State, a: Step)
    requires Enabled(s, a)
  {
    || (a.Fail? && Sole(s, a.w))
    || (a.Leave? && HeadReady(s) && !SomeOther(s.workers, a.w, Alive))
    || (a.Publish? && s.submitters[a.i].pos == s.head && !Some(s.workers, Alive))
  }

  /** With somebody left: a new token or a new poster, a steal that succeeds, or a worker that sees shutdown in
      time. */
  ghost predicate Regains(s: State, a: Step)
    requires Enabled(s, a)
  {
    && Some(s.workers, Alive)
    && (|| a.LaneSubmit? || a.PostReady? || a.Shutdown? || a.Publish? || a.Spill?
        || (a.Go? && Finds(s, a.w, a.n, a.victim)))
  }

  lemma ScanRingImplies(ws: seq<Worker>)
    ensures Some(ws, WillScanRing) ==> Some(ws, WillScanLanes) && Some(ws, Alive)
    ensures Some(ws, WillScanLanes) ==> Some(ws, Alive)
  {
    if w :| 0 <= w < |ws| && WillScanRing(ws[w]) { assert WillScanLanes(ws[w]) && Alive(ws[w]); }
    if w :| 0 <= w < |ws| && WillScanLanes(ws[w]) { assert Alive(ws[w]); }
  }

  /** Until shutdown nobody has left. */
  lemma AliveUntilShutdown(s: State)
    requires Inv(s) && !s.shutdown
    ensures Some(s.workers, Alive)
  {
    assert WorkerOk(s, 0);
    assert Alive(s.workers[0]);
  }

  // ---------------------------------------------------------------- proof: which steps lose it

  lemma OutsideLoss(s: State, a: Step)
    requires Inv(s) && Enabled(s, a) && !ByWorker(a) && Watched(s)
    ensures if Loses(s, a) then Unwatched(Do(s, a)) else Watched(Do(s, a))
  {
    var s' := Do(s, a);
    assert s'.workers == s.workers;
    ScanRingImplies(s.workers);
    if BySubmitter(a) { PostersKept(s, a); assert SubmitterOk(s, a.i); }
    if !s.shutdown { AliveUntilShutdown(s); }
  }

  /** A worker's move, seen by the watch. */
  lemma MoveSeen(s: State, a: Step)
    requires Enabled(s, a) && ByWorker(a)
    ensures
      var s' := Do(s, a);
      var pc' := if a.w < |s'.workers| then s'.workers[a.w] else Top;
      && a.w < |s'.workers|
      && (Some(s'.workers, Alive) <==> Alive(pc') || SomeOther(s.workers, a.w, Alive))
      && (Some(s'.workers, WillScanRing) <==> WillScanRing(pc') || SomeOther(s.workers, a.w, WillScanRing))
      && (Some(s'.workers, WillScanLanes) <==> WillScanLanes(pc') || SomeOther(s.workers, a.w, WillScanLanes))
      && (SomeOther(s.workers, a.w, WillScanRing) ==> SomeOther(s.workers, a.w, WillScanLanes))
      && (SomeOther(s.workers, a.w, WillScanLanes) ==> SomeOther(s.workers, a.w, Alive))
  {
    var s' := Do(s, a);
    SomeUpdate(s.workers, a.w, s'.workers[a.w], Alive);
    SomeUpdate(s.workers, a.w, s'.workers[a.w], WillScanRing);
    SomeUpdate(s.workers, a.w, s'.workers[a.w], WillScanLanes);
    if v :| 0 <= v < |s.workers| && v != a.w && WillScanRing(s.workers[v]) { assert WillScanLanes(s.workers[v]); }
    if v :| 0 <= v < |s.workers| && v != a.w && WillScanLanes(s.workers[v]) { assert Alive(s.workers[v]); }
  }

  /** The watch before worker w moves. */
  lemma WatchSplit(s: State, w: nat)
    requires w < |s.workers|
    ensures Some(s.workers, Alive) <==> Alive(s.workers[w]) || SomeOther(s.workers, w, Alive)
    ensures Some(s.workers, WillScanRing) <==> WillScanRing(s.workers[w]) || SomeOther(s.workers, w, WillScanRing)
    ensures Some(s.workers, WillScanLanes) <==> WillScanLanes(s.workers[w]) || SomeOther(s.workers, w, WillScanLanes)
  {
  }

  /** Skipping the lanes because the ring has work is safe: whoever watches the ring watches the lanes. */
  lemma LaneStep(s: State, w: nat, n: nat, victim: nat)
    requires Inv(s) && Enabled(s, Go(w, n, victim)) && s.workers[w].Scan4? && Watched(s)
    ensures Watched(GoStep(s, w, n, victim))
  {
    MoveSeen(s, Go(w, n, victim));
    WatchSplit(s, w);
  }

  lemma InertScan(s: State, w: nat, n: nat, victim: nat)
    requires Enabled(s, Go(w, n, victim)) && Scans(s.workers[w]) && !s.workers[w].Scan4?
    ensures
      var s' := ScanStep(s, w, n, victim);
      || WillScanRing(s'.workers[w])
      || (s' == Move(s, w, Scan3) && s.workers[w].Scan2? && !HeadReady(s))
      || (s' == Move(s, w, Scan4) && s.workers[w].Scan3?)
  {
  }

  /** A move after which the worker need not look at the ring again changes nothing else. */
  lemma InertMove(s: State, w: nat, n: nat, victim: nat)
    requires Enabled(s, Go(w, n, victim)) && !s.workers[w].Scan4?
    ensures
      var s' := GoStep(s, w, n, victim);
      || WillScanRing(s'.workers[w])
      || (s' == Move(s, w, Scan3) && s.workers[w].Scan2? && !HeadReady(s))
      || (s' == Move(s, w, Scan4) && s.workers[w].Scan3?)
      || (s' == Move(s, w, Blocked) && s.workers[w].Sleepy?)
  {
    if Scans(s.workers[w]) { InertScan(s, w, n, victim); }
  }

  lemma GoLoss(s: State, w: nat, n: nat, victim: nat)
    requires Inv(s) && Enabled(s, Go(w, n, victim)) && !s.workers[w].Scan4? && Watched(s)
    ensures Watched(GoStep(s, w, n, victim))
  {
    InertMove(s, w, n, victim);
    MoveSeen(s, Go(w, n, victim));
    WatchSplit(s, w);
    var s' := GoStep(s, w, n, victim);
    if WillScanRing(s'.workers[w]) { ScanRingImplies(s'.workers); }
  }

  lemma LeaveLoss(s: State, a: Step)
    requires Inv(s) && Enabled(s, a) && (a.Fail? || a.Leave?) && Watched(s)
    ensures if Loses(s, a) then Unwatched(Do(s, a)) else Watched(Do(s, a))
  {
    assert WorkerOk(s, a.w);
    MoveSeen(s, a);
    WatchSplit(s, a.w);
  }

  lemma LossStep(s: State, a: Step)
    requires Inv(s) && Enabled(s, a) && Watched(s)
    ensures if Loses(s, a) then Unwatched(Do(s, a)) else Watched(Do(s, a))
  {
    if !ByWorker(a) { OutsideLoss(s, a); }
    else if !a.Go? { LeaveLoss(s, a); }
    else if s.workers[a.w].Scan4? { LaneStep(s, a.w, a.n, a.victim); }
    else { GoLoss(s, a.w, a.n, a.victim); }
  }

  // ---------------------------------------------------------------- proof: which steps regain it

  lemma OutsideRegain(s: State, a: Step)
    requires Inv(s) && Enabled(s, a) && !ByWorker(a) && Unwatched(s)
    ensures if Regains(s, a) then Watched(Do(s, a)) else Unwatched(Do(s, a))
  {
    var s' := Do(s, a);
    assert s'.workers == s.workers;
    ScanRingImplies(s.workers);
    if BySubmitter(a) { PostersKept(s, a); assert SubmitterOk(s, a.i); }
    if a.Post? { SomeUpdate(s.submitters, a.i, Idle, WillPost); }
    if !s.shutdown { AliveUntilShutdown(s); }
  }

  lemma WorkerRegain(s: State, a: Step)
    requires Inv(s) && Enabled(s, a) && ByWorker(a) && Unwatched(s)
    ensures if Regains(s, a) then Watched(Do(s, a)) else Unwatched(Do(s, a))
  {
    MoveSeen(s, a);
    WatchSplit(s, a.w);
  }

  lemma RegainStep(s: State, a: Step)
    requires Inv(s) && Enabled(s, a) && Unwatched(s)
    ensures if Regains(s, a) then Watched(Do(s, a)) else Unwatched(Do(s, a))
  {
    if ByWorker(a) { WorkerRegain(s, a); } else { OutsideRegain(s, a); }
  }

  /** Whatever was the case before, these steps leave the ring head unwatched. */
  lemma LosesAnyway(s: State, a: Step)
    requires Inv(s) && Enabled(s, a) && Loses(s, a)
    ensures Unwatched(Do(s, a))
  {
    if a.Publish? {
      ScanRingImplies(s.workers);
    } else {
      MoveSeen(s, a);
    }
  }

  // ---------------------------------------------------------------- theorems: ring and lanes

  ghost predicate Lost(s: State, s': State)
  {
    exists a :: Enabled(s, a) && Loses(s, a) && s' == Do(s, a)
  }

  ghost predicate Regained(s: State, s': State)
  {
    exists a :: Enabled(s, a) && Regains(s, a) && s' == Do(s, a)
  }

  /** Ring and lanes are watched, or there is a ready ring head that nobody watches. */
  ghost predicate Either(s: State)
  {
    Inv(s) && (Watched(s) <==> !Unwatched(s))
  }

  lemma WatchGoverned(s: State, s': State)
    requires Either(s) && Next(s, s')
    ensures Either(s') && Governs(Lost, Regained, Unwatched, s, s')
  {
    InvStep(s, s');
    var a :| Enabled(s, a) && s' == Do(s, a);
    if Watched(s) { LossStep(s, a); } else { RegainStep(s, a); }
    if Lost(s, s') {
      var b :| Enabled(s, b) && Loses(s, b) && s' == Do(s, b);
      LosesAnyway(s, b);
    }
    if Unwatched(s) && Regained(s, s') {
      var b :| Enabled(s, b) && Regains(s, b) && s' == Do(s, b);
      RegainStep(s, b);
    }
  }

  lemma InitEither(s: State)
    requires Init(s)
    ensures Either(s) && !Unwatched(s)
  {
    InitInv(s);
  }

  lemma EitherAt(r: seq<State>, k: nat)
    requires IsRun(Init, Next, r) && k < |r|
    ensures Either(r[k])
  {
    forall s | Init(s) ensures Either(s) { InitEither(s); }
    forall s, s' | Either(s) && Next(s, s') ensures Either(s') { WatchGoverned(s, s'); }
    RunKeeps(Init, Next, Either, r);
  }

  /** Along every run the watch is lost by exactly three kinds of step. */
  lemma WatchLostIff(r: seq<State>, k: nat, a: Step)
    requires IsRun(Init, Next, r) && k < |r| && Enabled(r[k], a) && Watched(r[k])
    ensures !Watched(Do(r[k], a)) <==> Loses(r[k], a)
  {
    InvAt(r, k);
    LossStep(r[k], a);
  }

  /** ... and regained by exactly these, never once the last worker has left. */
  lemma WatchRegainedIff(r: seq<State>, k: nat, a: Step)
    requires IsRun(Init, Next, r) && k < |r| && Enabled(r[k], a) && !Watched(r[k])
    ensures Watched(Do(r[k], a)) <==> Regains(r[k], a)
  {
    EitherAt(r, k);
    RegainStep(r[k], a);
  }

  /** Every worker in sem_wait, no token left, and nobody between publishing and posting. */
  ghost predicate AllAsleep(s: State)
  {
    s.tokens == 0 && (forall w :: 0 <= w < |s.workers| ==> s.workers[w].Blocked?) && !Some(s.submitters, WillPost)
  }

  /** In every reachable state the ring head is ready and unwatched if and only if a losing step happened and no
      regaining one since. */
  lemma UnwatchedIffLost(r: seq<State>, k: nat)
    requires IsRun(Init, Next, r) && k < |r|
    ensures Unwatched(r[k]) <==> exists i :: Since(Lost, Regained, r, i, k)
  {
    forall s | Init(s) ensures Either(s) && !Unwatched(s) { InitEither(s); }
    forall s, s' | Either(s) && Next(s, s') ensures Either(s') && Governs(Lost, Regained, Unwatched, s, s') {
      WatchGoverned(s, s');
    }
    HoldsIffSince(Init, Next, Either, Unwatched, Lost, Regained, r, k);
  }

  /** When all are asleep the pool is not shut down, no deque entry is left, and a ready ring head or a lane
      entry is left if and only if a losing step happened and no regaining one since. */
  lemma NoLostWakeup(r: seq<State>, k: nat)
    requires IsRun(Init, Next, r) && k < |r| && AllAsleep(r[k])
    ensures !r[k].shutdown && AllZero(r[k].deques)
    ensures HeadReady(r[k]) || !LanesEmpty(r[k]) <==> exists i :: Since(Lost, Regained, r, i, k)
  {
    var s := r[k];
    EitherAt(r, k);
    NumberPrefix(s.workers, IsBlocked, |s.workers|);
    forall w | 0 <= w < |s.workers| ensures s.deques[w] == 0 { assert WorkerOk(s, w); }
    UnwatchedIffLost(r, k);
  }

  // ---------------------------------------------------------------- runs

  lemma Took(r: seq<State>, a: Step, s': State) returns (r': seq<State>)
    requires IsRun(Init, Next, r) && Enabled(r[|r| - 1], a) && s' == Do(r[|r| - 1], a)
    ensures IsRun(Init, Next, r') && r' == r + [s']
  {
    assert Next(r[|r| - 1], s');
    Extended(Init, Next, r, s');
    r' := r + [s'];
  }

  /** `s` with worker w at `pc`, holding the lock if it should. */
  function At(s: State, w: nat, pc: Worker): State
    requires w < |s.workers|
  {
    s.(workers := s.workers[w := pc], lock := if Locked(pc) then Held(w) else Free)
  }

  /** Nothing for a worker to find: apart from normal lanes and the ring. */
  ghost predicate Bare(s: State)
  {
    Sized(s) && s.urgent == 0 && !s.shutdown && AllZero(s.deques)
  }

  /** Where a worker that finds nothing goes next. */
  function After(pc: Worker): Worker
  {
    match pc
    case Top => Resume
    case Resume => Test
    case Test => Scan0
    case Scan0 => Scan1
    case Scan1 => Scan2
    case Scan2 => Scan3
    case Scan3 => Scan4
    case Scan4 => Sleepy
    case _ => Blocked
  }

  predicate OnTheWay(pc: Worker)
  {
    pc.Top? || pc.Resume? || pc.Test? || Scans(pc) || pc.Sleepy?
  }

  lemma IdleGo(s: State, w: nat, pc: Worker)
    requires Bare(s) && w < |s.workers| && s.fifos[w] == 0 && OnTheWay(pc)
    requires (pc.Scan2? ==> !HeadReady(s)) && (pc.Scan4? ==> HeadReady(s) || s.normal == 0)
    ensures Enabled(At(s, w, pc), Go(w, 0, w)) && GoStep(At(s, w, pc), w, 0, w) == At(s, w, After(pc))
  {
    assert s.workers[w := pc][w := After(pc)] == s.workers[w := After(pc)];
  }

  lemma IdleStep(r: seq<State>, s: State, w: nat, pc: Worker) returns (r': seq<State>)
    requires Bare(s) && w < |s.workers| && s.fifos[w] == 0 && OnTheWay(pc)
    requires IsRun(Init, Next, r) && r[|r| - 1] == At(s, w, pc)
    requires (pc.Scan2? ==> !HeadReady(s)) && (pc.Scan4? ==> HeadReady(s) || s.normal == 0)
    ensures IsRun(Init, Next, r') && r'[|r'| - 1] == At(s, w, After(pc)) && r'[0] == r[0]
  {
    IdleGo(s, w, pc);
    r' := Took(r, Go(w, 0, w), At(s, w, After(pc)));
  }

  /** From the top of the loop to the ring check. */
  lemma ToRing(r: seq<State>, s: State, w: nat) returns (r': seq<State>)
    requires Bare(s) && w < |s.workers| && s.fifos[w] == 0 && IsRun(Init, Next, r) && r[|r| - 1] == At(s, w, Top)
    ensures IsRun(Init, Next, r') && r'[|r'| - 1] == At(s, w, Scan2) && r'[0] == r[0]
  {
    r' := IdleStep(r, s, w, Top);
    r' := IdleStep(r', s, w, Resume);
    r' := IdleStep(r', s, w, Test);
    r' := IdleStep(r', s, w, Scan0);
    r' := IdleStep(r', s, w, Scan1);
  }

  /** ... and from the steal step to sleep. */
  lemma ToSleep(r: seq<State>, s: State, w: nat) returns (r': seq<State>)
    requires Bare(s) && w < |s.workers| && s.fifos[w] == 0 && IsRun(Init, Next, r) && r[|r| - 1] == At(s, w, Scan3)
    requires HeadReady(s) || s.normal == 0
    ensures IsRun(Init, Next, r') && r'[|r'| - 1] == At(s, w, Blocked) && r'[0] == r[0]
  {
    r' := IdleStep(r, s, w, Scan3);
    r' := IdleStep(r', s, w, Scan4);
    r' := IdleStep(r', s, w, Sleepy);
  }

  /** A worker that finds nothing goes from the top of its loop to sleep. */
  lemma IdlePass(r: seq<State>, s: State, w: nat) returns (r': seq<State>)
    requires Bare(s) && w < |s.workers| && s.fifos[w] == 0 && IsRun(Init, Next, r) && r[|r| - 1] == At(s, w, Top)
    requires !HeadReady(s) && s.normal == 0
    ensures IsRun(Init, Next, r') && r'[|r'| - 1] == At(s, w, Blocked) && r'[0] == r[0]
  {
    r' := ToRing(r, s, w);
    r' := IdleStep(r', s, w, Scan2);
    r' := ToSleep(r', s, w);
  }

  /** One worker and one submitter. */
  function Alone(cells: seq<Cell>, ringCount: int, tokens: nat, w: Worker, i: Submitter): State
  {
    State(4, cells, 0, ringCount, [0], [0], [0], 0, 0, 0, tokens, false, Free, [w], [i])
  }

  lemma Published() returns (r: seq<State>)
    ensures IsRun(Init, Next, r) && r[|r| - 1] == Alone([Cell(0, true)], 0, 0, Blocked, Tallying)
  {
    var s0 := Alone([], 0, 0, Top, Idle);
    r := [s0];
    assert At(s0, 0, Top) == s0 && At(s0, 0, Blocked) == Alone([], 0, 0, Blocked, Idle);
    r := IdlePass(r, s0, 0);
    r := Took(r, Begin(0), Alone([], 0, 0, Blocked, Claiming));
    assert [] + [Cell(0, false)] == [Cell(0, false)];
    r := Took(r, Claim(0), Alone([Cell(0, false)], 0, 0, Blocked, Storing(0)));
    assert [Cell(0, false)][0 := Cell(0, true)] == [Cell(0, true)];
    r := Took(r, Publish(0), Alone([Cell(0, true)], 0, 0, Blocked, Tallying));
  }

  lemma Posted() returns (r: seq<State>)
    ensures IsRun(Init, Next, r) && r[|r| - 1] == Alone([Cell(0, true)], 1, 1, Blocked, Idle)
  {
    r := Published();
    var cells := [Cell(0, true)];
    assert [Tallying][0 := Posting] == [Posting];
    r := Took(r, Tally(0), Alone(cells, 1, 0, Blocked, Posting));
    assert [Posting][0 := Idle] == [Idle];
    r := Took(r, Post(0), Alone(cells, 1, 1, Blocked, Idle));
  }

  /** A worker in sem_wait takes a token. */
  lemma Wakes(s: State, w: nat)
    requires Sized(s) && w < |s.workers| && s.workers[w].Blocked? && s.tokens > 0
    ensures Enabled(s, Go(w, 0, 0)) && Do(s, Go(w, 0, 0)) == Move(s, w, Top).(tokens := s.tokens - 1)
  {
  }

  /** It is asleep; a task is submitted; its token wakes the worker. */
  lemma WokenForTask() returns (r: seq<State>)
    ensures IsRun(Init, Next, r) && r[|r| - 1] == Alone([Cell(0, true)], 1, 0, Top, Idle)
  {
    r := Posted();
    var s := Alone([Cell(0, true)], 1, 1, Blocked, Idle);
    Wakes(s, 0);
    assert [Blocked][0 := Top] == [Top];
    r := Took(r, Go(0, 0, 0), Move(s, 0, Top).(tokens := 0));
  }

  /** It does happen: after one sole failure all are asleep and the task at the ring head waits. */
  lemma SpuriousFailureStrands() returns (r: seq<State>)
    ensures IsRun(Init, Next, r) && AllAsleep(r[|r| - 1]) && HeadReady(r[|r| - 1])
  {
    r := WokenForTask();
    var s := Alone([Cell(0, true)], 1, 0, Top, Idle);
    assert At(s, 0, Top) == s;
    r := ToRing(r, s, 0);
    r := Took(r, Fail(0), At(s, 0, Scan3));
    r := ToSleep(r, s, 0);
  }
}
