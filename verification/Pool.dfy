/** Where every plain task is and what the pool's counters say about it: ring producers, lane submitters,
    workers and cancellers of `thread_pool.c` as a transition system.  Steps: each atomic access outside the
    pool lock, and each stretch of a critical section between two points where a lock-free producer can
    interfere.  An index insertion is one step, and memory is sequentially consistent.  Sleeping and waking
    are the subject of another module; a worker that finds nothing goes round again. */
module Pool {
  import opened Collections
  import opened Runs

  datatype Place =
    | Submitting(i: nat)
    | InRing(p: nat)
    | InDeque(w: nat)
    | InLane
    | InHand(w: nat)           // taken by a worker, before the run boundary
    | OnWorker(w: nat)
    | Finished
    | Dropped                  // a worker took it and found it cancelled
    | CancelledInLane
    | Rejected

  /** One task: its node's flags, whether its id is in the cancel index, and history.  `counted` is whether
      `queue_len` includes it now; `adds` and `subs` how often it was added and subtracted; `runs` how often
      its function was started; `oks` how many cancel calls were told OK. */
  datatype Task = Task(place: Place, urgent: bool, viaRing: bool, indexed: bool, cancelled: bool, counted: bool,
                       adds: nat, subs: nat, runs: nat, oks: nat)

  /** How far the producer of a ring position is. */
  datatype Stage = Stored | Inserted | Published | Tallied

  datatype Cell = Cell(task: nat, stage: Stage, producer: nat)

  datatype Submitter =
    | Idle
    | Created(t: nat)
    | Counted(t: nat)          // queue_len incremented
    | Claimed(t: nat, p: nat)  // ring position claimed, task stored
    | Indexed(t: nat, p: nat)
    | Tallying(t: nat, p: nat) // published; ring_count not yet incremented
    | Refused(t: nat)          // by the ring; queue_len not yet decremented
    | Spilling(t: nat)

  datatype Worker =
    | Top
    | Test                     // exit test: shutdown and queue_len
    | Test2                    // exit test: ring_count and deque_total
    | Scan0                    // urgent lanes
    | Scan1                    // own deque
    | Scan2(n: nat)            // ring; n tasks of the batch are in the own deque
    | Scan3                    // steal
    | Scan4                    // lanes
    | Commit(t: nat)           // the run boundary
    | Running(t: nat)
    | Exited

  datatype Lock = Free | Held(w: nat)

  datatype State = State(
    ringSize: nat,
    tasks: seq<Task>,
    ring: seq<Cell>,
    head: nat,
    deques: seq<seq<nat>>,
    lane: seq<nat>,
    queueLen: int,
    ringCount: int,
    shutdown: bool,
    lock: Lock,
    workers: seq<Worker>,
    submitters: seq<Submitter>)

  predicate Ready(c: Cell)
  {
    c.stage.Published? || c.stage.Tallied?
  }

  predicate HeadReady(s: State)
  {
    s.head < |s.ring| && Ready(s.ring[s.head])
  }

  /** The condition under which a worker leaves: the comparison made at the top of `worker_entry`'s loop. */
  predicate ExitTest(s: State)
  {
    s.shutdown && s.queueLen == 0 && s.ringCount == 0 && Sizes(s.deques) == 0
  }

  predicate Sized(s: State)
  {
    |s.deques| == |s.workers| && s.head <= |s.ring|
  }

  // ---------------------------------------------------------------- steps

  datatype Step =
    | Submit(i: nat)                   // the ring path begins
    | Act(i: nat, ok: bool)            // next action of submitter i; ok: the ring or the spill takes the task
    | LaneSubmit(urgent: bool)
    | Cancel(t: nat)
    | Shutdown
    | Go(w: nat, pick: nat)            // next action of worker w; pick: which lane entry, or which victim

  function NewTask(place: Place, urgent: bool): Task
  {
    if place.InLane? then Task(place, urgent, false, false, false, true, 1, 0, 0, 0)
    else Task(place, urgent, false, false, false, false, 0, 0, 0, 0)
  }

  function Added(x: Task): Task
  {
    x.(counted := true, adds := x.adds + 1)
  }

  function Subtracted(x: Task): Task
  {
    x.(counted := false, subs := x.subs + 1)
  }

  function With(s: State, t: nat, x: Task): State
    requires t < |s.tasks|
  {
    s.(tasks := s.tasks[t := x])
  }

  function Sub(s: State, i: nat, pc: Submitter): State
    requires i < |s.submitters|
  {
    s.(submitters := s.submitters[i := pc])
  }

  function Move(s: State, w: nat, pc: Worker): State
    requires w < |s.workers|
  {
    s.(workers := s.workers[w := pc])
  }

  function Without(xs: seq<nat>, k: nat): seq<nat>
    requires k < |xs|
  {
    xs[..k] + xs[k + 1..]
  }

  predicate OnRing(pc: Submitter)
  {
    pc.Claimed? || pc.Indexed? || pc.Tallying?
  }

  predicate SubTaskOk(s: State, pc: Submitter)
  {
    && (!pc.Idle? ==> pc.t < |s.tasks|)
    && (OnRing(pc) ==> pc.p < |s.ring|)
  }

  ghost predicate Enabled(s: State, a: Step)
  {
    && Sized(s)
    && match a
       case Submit(i) => i < |s.submitters| && s.submitters[i].Idle? && !s.shutdown
       case Act(i, ok) =>
         && i < |s.submitters| && !s.submitters[i].Idle? && SubTaskOk(s, s.submitters[i])
         && (s.submitters[i].Counted? && ok ==> |s.ring| < s.head + s.ringSize)
         && (s.submitters[i].Spilling? ==> s.lock.Free? && (ok ==> !s.shutdown))
       case LaneSubmit(_) => s.lock.Free? && !s.shutdown
       case Cancel(t) => s.lock.Free? && !s.shutdown && t < |s.tasks|
       case Shutdown => s.lock.Free?
       case Go(w, pick) => w < |s.workers| && CanGo(s, w, pick)
  }

  ghost predicate CanGo(s: State, w: nat, pick: nat)
    requires Sized(s) && w < |s.workers|
  {
    match s.workers[w]
    case Top => s.lock.Free?
    case Scan0 =>
      if pick < |s.lane| then s.lane[pick] < |s.tasks| && s.tasks[s.lane[pick]].urgent
      else forall t :: t in s.lane && t < |s.tasks| ==> !s.tasks[t].urgent
    case Scan1 => s.deques[w] != [] ==> s.deques[w][|s.deques[w]| - 1] < |s.tasks|
    case Scan2(n) =>
      // pick == 0: the batch ends here; with n == 0 the ring was empty or its claim failed
      && (pick != 0 ==> HeadReady(s) && n < BATCH && s.ring[s.head].task < |s.tasks|)
      && (pick == 0 && n > 0 ==> s.deques[w] != [] && s.deques[w][|s.deques[w]| - 1] < |s.tasks|)
    case Scan3 =>
      if pick < |s.workers| then pick != w && s.deques[pick] != [] && s.deques[pick][0] < |s.tasks|
      else HeadReady(s) || forall v :: 0 <= v < |s.workers| && v != w ==> s.deques[v] == []
    case Scan4 =>
      if HeadReady(s) || s.lane == [] then true else pick < |s.lane| && s.lane[pick] < |s.tasks|
    case Commit(t) => t < |s.tasks|
    case Running(t) => t < |s.tasks|
    case Exited => false
    case _ => true
  }

  function ActStep(s: State, i: nat, ok: bool): (s': State)
    requires Sized(s) && i < |s.submitters| && SubTaskOk(s, s.submitters[i])
    ensures |s'.tasks| == |s.tasks| && s'.workers == s.workers && s'.ringSize == s.ringSize
  {
    match s.submitters[i]
    case Idle => s
    case Created(t) => Sub(With(s, t, Added(s.tasks[t])), i, Counted(t)).(queueLen := s.queueLen + 1)
    case Counted(t) =>
      if ok then
        Sub(With(s, t, s.tasks[t].(place := InRing(|s.ring|), viaRing := true)), i, Claimed(t, |s.ring|))
          .(ring := s.ring + [Cell(t, Stored, i)])
      else Sub(s, i, Refused(t))
    case Claimed(t, p) =>
      Sub(With(s, t, s.tasks[t].(indexed := true)), i, Indexed(t, p))
        .(ring := s.ring[p := s.ring[p].(stage := Inserted)])
    case Indexed(t, p) => Sub(s, i, Tallying(t, p)).(ring := s.ring[p := s.ring[p].(stage := Published)])
    case Tallying(t, p) =>
      Sub(s, i, Idle).(ring := s.ring[p := s.ring[p].(stage := Tallied)], ringCount := s.ringCount + 1)
    case Refused(t) => Sub(With(s, t, Subtracted(s.tasks[t])), i, Spilling(t)).(queueLen := s.queueLen - 1)
    case Spilling(t) =>
      if ok then
        Sub(With(s, t, Added(s.tasks[t]).(place := InLane)), i, Idle).(lane := s.lane + [t], queueLen := s.queueLen + 1)
      else Sub(With(s, t, s.tasks[t].(place := Rejected)), i, Idle)
  }

  /** The first position of t, or the length. */
  function IndexOf(xs: seq<nat>, t: nat): (k: nat)
    ensures k <= |xs| && (k < |xs| ==> xs[k] == t) && (k == |xs| ==> t !in xs)
  {
    if xs == [] then 0 else if xs[0] == t then 0 else IndexOf(xs[1..], t) + 1
  }

  /** `loom_pool_cancel_by_id` (and, repeated, `loom_pool_cancel_all`): the index first, then the lanes. */
  function CancelStep(s: State, t: nat): (s': State)
    requires t < |s.tasks|
  {
    var x, k := s.tasks[t], IndexOf(s.lane, t);
    if x.indexed then
      if x.cancelled then s
      else With(s, t, Subtracted(x).(cancelled := true, indexed := false, oks := x.oks + 1))
             .(queueLen := s.queueLen - 1)
    else if k < |s.lane| then
      With(s, t, Subtracted(x).(place := CancelledInLane, oks := x.oks + 1))
        .(lane := Without(s.lane, k), queueLen := s.queueLen - 1)
    else s
  }

  /** Worker w takes t in hand. */
  function Take(s: State, w: nat, t: nat): (s': State)
    requires w < |s.workers| && t < |s.tasks|
  {
    Move(With(s, t, s.tasks[t].(place := InHand(w))), w, Commit(t))
  }

  function TakeFromLane(s: State, w: nat, k: nat): (s': State)
    requires w < |s.workers| && k < |s.lane| && s.lane[k] < |s.tasks|
  {
    var t := s.lane[k];
    Move(With(s, t, Subtracted(s.tasks[t]).(place := InHand(w))), w, Commit(t))
      .(lane := Without(s.lane, k), queueLen := s.queueLen - 1)
  }

  function PopNewest(s: State, w: nat): (s': State)
    requires Sized(s) && w < |s.workers| && s.deques[w] != [] && s.deques[w][|s.deques[w]| - 1] < |s.tasks|
  {
    var n := |s.deques[w]| - 1;
    Take(s, w, s.deques[w][n]).(deques := s.deques[w := s.deques[w][..n]])
  }

  /** One task of the batch moves from the ring head to the worker's deque. */
  function Transfer(s: State, w: nat, n: nat): (s': State)
    requires Sized(s) && w < |s.workers| && HeadReady(s) && s.ring[s.head].task < |s.tasks|
  {
    var t := s.ring[s.head].task;
    Move(With(s, t, s.tasks[t].(place := InDeque(w))), w, Scan2(n + 1))
      .(deques := s.deques[w := s.deques[w] + [t]], head := s.head + 1, ringCount := s.ringCount - 1)
  }

  /** The run boundary. */
  function Boundary(s: State, w: nat, t: nat): (s': State)
    requires w < |s.workers| && t < |s.tasks|
  {
    var x := s.tasks[t].(indexed := false);
    if x.cancelled then Move(With(s, t, x.(place := Dropped)), w, Top).(lock := Free)
    else if x.viaRing then
      Move(With(s, t, Subtracted(x).(place := OnWorker(w), runs := x.runs + 1)), w, Running(t))
        .(lock := Free, queueLen := s.queueLen - 1)
    else Move(With(s, t, x.(place := OnWorker(w), runs := x.runs + 1)), w, Running(t)).(lock := Free)
  }

  function GoStep(s: State, w: nat, pick: nat): (s': State)
    requires Sized(s) && w < |s.workers| && CanGo(s, w, pick)
    ensures |s'.tasks| == |s.tasks| && |s'.workers| == |s.workers| && s'.ringSize == s.ringSize
  {
    match s.workers[w]
    case Top => Move(s, w, Test).(lock := Held(w))
    case Test => Move(s, w, if s.shutdown && s.queueLen == 0 then Test2 else Scan0)
    case Test2 =>
      if s.ringCount == 0 && Sizes(s.deques) == 0 then Move(s, w, Exited).(lock := Free) else Move(s, w, Scan0)
    case Scan0 => if pick < |s.lane| then TakeFromLane(s, w, pick) else Move(s, w, Scan1)
    case Scan1 => if s.deques[w] != [] then PopNewest(s, w) else Move(s, w, Scan2(0))
    case Scan2(n) =>
      if pick != 0 then Transfer(s, w, n) else if n > 0 then PopNewest(s, w) else Move(s, w, Scan3)
    case Scan3 =>
      if pick < |s.workers| then Take(s, w, s.deques[pick][0]).(deques := s.deques[pick := s.deques[pick][1..]])
      else Move(s, w, Scan4)
    case Scan4 =>
      if HeadReady(s) || s.lane == [] then Move(s, w, Top).(lock := Free) else TakeFromLane(s, w, pick)
    case Commit(t) => Boundary(s, w, t)
    case Running(t) => Move(With(s, t, s.tasks[t].(place := Finished)), w, Top)
    case Exited => s
  }

  function Do(s: State, a: Step): State
    requires Enabled(s, a)
  {
    match a
    case Submit(i) => Sub(s, i, Created(|s.tasks|)).(tasks := s.tasks + [NewTask(Submitting(i), false)])
    case Act(i, ok) => ActStep(s, i, ok)
    case LaneSubmit(urgent) =>
      s.(tasks := s.tasks + [NewTask(InLane, urgent)], lane := s.lane + [|s.tasks|], queueLen := s.queueLen + 1)
    case Cancel(t) => CancelStep(s, t)
    case Shutdown => s.(shutdown := true)
    case Go(w, pick) => GoStep(s, w, pick)
  }

  ghost predicate Init(s: State)
  {
    && s.ringSize > 0 && s.tasks == [] && s.ring == [] && s.head == 0 && s.lane == []
    && s.queueLen == 0 && s.ringCount == 0 && !s.shutdown && s.lock.Free?
    && |s.deques| == |s.workers| > 0
    && (forall w :: 0 <= w < |s.workers| ==> s.workers[w].Top? && s.deques[w] == [])
    && (forall i :: 0 <= i < |s.submitters| ==> s.submitters[i].Idle?)
  }

  ghost predicate Next(s: State, s': State)
  {
    exists a :: Enabled(s, a) && s' == Do(s, a)
  }

  // ---------------------------------------------------------------- invariant

  /** The flags a task has in its place. */
  predicate FlagsOk(x: Task, pc: Submitter, stage: Stage)
  {
    && x.adds == x.subs + (if x.counted then 1 else 0)
    && (x.viaRing ==> x.adds == 1)
    && x.runs == (if x.place.OnWorker? || x.place.Finished? then 1 else 0)
    && x.oks == (if x.cancelled || x.place.CancelledInLane? then 1 else 0)
    && match x.place
       case Submitting(_) =>
         !x.viaRing && !x.indexed && !x.cancelled && x.counted == (pc.Counted? || pc.Refused?)
           && (pc.Created? || pc.Counted? || pc.Refused? ==> x.subs == 0)
       case InRing(_) =>
         && x.viaRing && x.counted == !x.cancelled
         && (if stage.Stored? then !x.indexed && !x.cancelled else x.indexed == !x.cancelled)
       case InDeque(_) => x.viaRing && x.counted == !x.cancelled && x.indexed == !x.cancelled
       case InLane => !x.viaRing && !x.indexed && !x.cancelled && x.counted
       case InHand(_) =>
         if x.viaRing then x.counted == !x.cancelled && x.indexed == !x.cancelled
         else !x.counted && !x.indexed && !x.cancelled
       case Dropped => x.viaRing && x.cancelled && !x.indexed && !x.counted
       case _ => !x.cancelled && !x.indexed && !x.counted && (x.viaRing ==> x.place.OnWorker? || x.place.Finished?)
  }

  /** The task is where its place says. */
  ghost predicate Backed(s: State, t: nat)
    requires Sized(s) && t < |s.tasks|
  {
    match s.tasks[t].place
    case Submitting(i) =>
      && i < |s.submitters| && !s.submitters[i].Idle? && s.submitters[i].t == t
      && (s.submitters[i].Created? || s.submitters[i].Counted? || s.submitters[i].Refused? || s.submitters[i].Spilling?)
    case InRing(p) => s.head <= p < |s.ring| && s.ring[p].task == t
    case InDeque(w) => w < |s.deques| && t in s.deques[w]
    case InLane => t in s.lane
    case InHand(w) => w < |s.workers| && s.workers[w] == Commit(t)
    case OnWorker(w) => w < |s.workers| && s.workers[w] == Running(t)
    case _ => true
  }

  function PcOf(s: State, x: Task): Submitter
  {
    if x.place.Submitting? && x.place.i < |s.submitters| then s.submitters[x.place.i] else Idle
  }

  function StageOf(s: State, x: Task): Stage
  {
    if x.place.InRing? && x.place.p < |s.ring| then s.ring[x.place.p].stage else Stored
  }

  ghost predicate TaskOk(s: State, t: nat)
    requires Sized(s) && t < |s.tasks|
  {
    Backed(s, t) && FlagsOk(s.tasks[t], PcOf(s, s.tasks[t]), StageOf(s, s.tasks[t]))
  }

  ghost predicate At(s: State, t: nat, place: Place)
  {
    t < |s.tasks| && s.tasks[t].place == place
  }

  function ProducerAt(c: Cell, p: nat): Submitter
  {
    match c.stage
    case Stored => Claimed(c.task, p)
    case Inserted => Indexed(c.task, p)
    case _ => Tallying(c.task, p)
  }

  ghost predicate CellOk(s: State, p: nat)
    requires Sized(s) && p < |s.ring|
  {
    var c := s.ring[p];
    && (p >= s.head ==> At(s, c.task, InRing(p)))
    && (p < s.head ==> Ready(c))
    && (!c.stage.Tallied? ==> c.producer < |s.submitters| && s.submitters[c.producer] == ProducerAt(c, p))
  }

  ghost predicate SubmitterOk(s: State, i: nat)
    requires Sized(s) && i < |s.submitters|
  {
    match s.submitters[i]
    case Idle => true
    case Claimed(t, p) => p < |s.ring| && s.ring[p] == Cell(t, Stored, i) && t < |s.tasks|
    case Indexed(t, p) => p < |s.ring| && s.ring[p] == Cell(t, Inserted, i) && t < |s.tasks|
    case Tallying(t, p) => p < |s.ring| && s.ring[p] == Cell(t, Published, i) && t < |s.tasks|
    case pc => At(s, pc.t, Submitting(i))
  }

  ghost predicate DequeOk(s: State, w: nat)
    requires Sized(s) && w < |s.deques|
  {
    && Distinct(s.deques[w]) && |s.deques[w]| <= BATCH
    && forall k :: 0 <= k < |s.deques[w]| ==> At(s, s.deques[w][k], InDeque(w))
  }

  ghost predicate LaneOk(s: State)
  {
    Distinct(s.lane) && forall k :: 0 <= k < |s.lane| ==> At(s, s.lane[k], InLane)
  }

  predicate Locked(w: Worker)
  {
    !w.Top? && !w.Running? && !w.Exited?
  }

  ghost predicate WorkerOk(s: State, w: nat)
    requires Sized(s) && w < |s.workers|
  {
    && (Locked(s.workers[w]) <==> s.lock == Held(w))
    && match s.workers[w]
       case Commit(t) => At(s, t, InHand(w))
       case Running(t) => At(s, t, OnWorker(w))
       case Scan2(n) => |s.deques[w]| == n <= BATCH
       case _ => true
  }

  predicate IsCounted(x: Task)
  {
    x.counted
  }

  predicate IsTallied(c: Cell)
  {
    c.stage.Tallied?
  }

  ghost predicate Tasks(s: State)
    requires Sized(s)
  {
    forall t {:trigger TaskOk(s, t)} :: 0 <= t < |s.tasks| ==> TaskOk(s, t)
  }

  ghost predicate Cells(s: State)
    requires Sized(s)
  {
    forall p {:trigger CellOk(s, p)} :: 0 <= p < |s.ring| ==> CellOk(s, p)
  }

  ghost predicate Submitters(s: State)
    requires Sized(s)
  {
    forall i {:trigger SubmitterOk(s, i)} :: 0 <= i < |s.submitters| ==> SubmitterOk(s, i)
  }

  ghost predicate Deques(s: State)
    requires Sized(s)
  {
    forall w {:trigger DequeOk(s, w)} :: 0 <= w < |s.deques| ==> DequeOk(s, w)
  }

  ghost predicate Workers(s: State)
    requires Sized(s)
  {
    forall w {:trigger WorkerOk(s, w)} :: 0 <= w < |s.workers| ==> WorkerOk(s, w)
  }

  ghost predicate Counters(s: State)
  {
    && s.queueLen == NumberOf(s.tasks, IsCounted) && s.ringCount == NumberOf(s.ring, IsTallied) - s.head
    && |s.ring| <= s.head + s.ringSize && |s.workers| > 0
  }

  ghost predicate Inv(s: State)
  {
    Sized(s) && Tasks(s) && Cells(s) && Submitters(s) && Deques(s) && LaneOk(s) && Workers(s) && Counters(s)
  }

  // ---------------------------------------------------------------- proof: what a step leaves alone

  /** Only task t differs, or is new. */
  ghost predicate OneTask(xs: seq<Task>, ys: seq<Task>, t: nat)
  {
    && (|ys| == |xs| || (|ys| == |xs| + 1 && t == |xs|))
    && forall u :: 0 <= u < |xs| && u != t ==> ys[u] == xs[u]
  }

  /** Only submitter i differs (none if i is no index), and it was busy with t. */
  ghost predicate OneSubmitter(xs: seq<Submitter>, ys: seq<Submitter>, i: nat, t: nat)
  {
    && |ys| == |xs| && (forall j :: 0 <= j < |xs| && j != i ==> ys[j] == xs[j])
    && (i < |xs| && !xs[i].Idle? ==> xs[i].t == t)
  }

  ghost predicate OneWorker(xs: seq<Worker>, ys: seq<Worker>, w: nat, t: nat)
  {
    && |ys| == |xs| && (forall v :: 0 <= v < |xs| && v != w ==> ys[v] == xs[v])
    && (w < |xs| && (xs[w].Commit? || xs[w].Running?) ==> xs[w].t == t)
  }

  /** Only cell p differs, in its stage, and it holds t; or a cell was added. */
  ghost predicate OneCell(xs: seq<Cell>, ys: seq<Cell>, p: nat, t: nat)
  {
    && |xs| <= |ys| <= |xs| + 1 && (|ys| > |xs| ==> p == |xs|)
    && (forall q :: 0 <= q < |xs| && q != p ==> ys[q] == xs[q])
    && (p < |xs| ==> xs[p].task == t && ys[p].task == t)
  }

  /** No list lost anything but t. */
  ghost predicate Keeps(xs: seq<nat>, ys: seq<nat>, t: nat)
  {
    forall u :: u in xs && u != t ==> u in ys
  }

  lemma TaskKept(s: State, s': State, t: nat, i: nat, w: nat, p: nat, u: nat)
    requires Sized(s) && Sized(s') && OneTask(s.tasks, s'.tasks, t) && OneSubmitter(s.submitters, s'.submitters, i, t)
    requires OneWorker(s.workers, s'.workers, w, t) && OneCell(s.ring, s'.ring, p, t)
    requires s'.head == s.head || (s'.head == s.head + 1 && s.head < |s.ring| && s.ring[s.head].task == t)
    requires forall v :: 0 <= v < |s.deques| ==> Keeps(s.deques[v], s'.deques[v], t)
    requires Keeps(s.lane, s'.lane, t)
    requires u < |s.tasks| && u != t && TaskOk(s, u)
    ensures TaskOk(s', u)
  {
  }

  lemma CellKept(s: State, s': State, t: nat, i: nat, p: nat, q: nat)
    requires Sized(s) && Sized(s') && OneTask(s.tasks, s'.tasks, t) && OneSubmitter(s.submitters, s'.submitters, i, t)
    requires OneCell(s.ring, s'.ring, p, t) && q < |s.ring| && q != p && CellOk(s, q)
    requires s'.head == s.head || (s'.head == s.head + 1 && s.head < |s.ring| && Ready(s.ring[s.head]))
    requires q >= s'.head && s.ring[q].task == t ==> At(s', t, InRing(q))
    requires i < |s.submitters| && OnRing(s.submitters[i]) ==> s.submitters[i].p == p
    ensures CellOk(s', q)
  {
  }

  lemma SubmitterKept(s: State, s': State, t: nat, i: nat, p: nat, j: nat)
    requires Sized(s) && Sized(s') && OneTask(s.tasks, s'.tasks, t) && OneSubmitter(s.submitters, s'.submitters, i, t)
    requires OneCell(s.ring, s'.ring, p, t) && j < |s.submitters| && j != i && SubmitterOk(s, j)
    requires p < |s.ring| ==> s.ring[p].producer == i || s.ring[p] == s'.ring[p]
    requires At(s, t, Submitting(j)) ==> At(s', t, Submitting(j))
    ensures SubmitterOk(s', j)
  {
  }

  lemma DequeKept(s: State, s': State, t: nat, v: nat)
    requires Sized(s) && Sized(s') && OneTask(s.tasks, s'.tasks, t) && v < |s.deques| && v < |s'.deques|
    requires DequeOk(s, v) && s'.deques[v] == s.deques[v] && (At(s, t, InDeque(v)) ==> At(s', t, InDeque(v)))
    ensures DequeOk(s', v)
  {
    forall k | 0 <= k < |s.deques[v]| ensures At(s', s.deques[v][k], InDeque(v)) {
      assert At(s, s.deques[v][k], InDeque(v));
    }
  }

  lemma LaneKept(s: State, s': State, t: nat)
    requires LaneOk(s) && s'.lane == s.lane && OneTask(s.tasks, s'.tasks, t) && (At(s, t, InLane) ==> At(s', t, InLane))
    ensures LaneOk(s')
  {
    forall k | 0 <= k < |s.lane| ensures At(s', s.lane[k], InLane) { assert At(s, s.lane[k], InLane); }
  }

  lemma WorkerKept(s: State, s': State, t: nat, w: nat, v: nat)
    requires Sized(s) && Sized(s') && OneTask(s.tasks, s'.tasks, t) && OneWorker(s.workers, s'.workers, w, t)
    requires v < |s.workers| && v != w && WorkerOk(s, v)
    requires s'.lock == Held(v) <==> s.lock == Held(v)
    requires s.workers[v].Scan2? ==> s'.deques[v] == s.deques[v]
    requires At(s, t, InHand(v)) ==> At(s', t, InHand(v))
    requires At(s, t, OnWorker(v)) ==> At(s', t, OnWorker(v))
    ensures WorkerOk(s', v)
  {
  }

  /** What a step may touch: task t, submitter i, worker w, cell p, deque d (no index: none). */
  ghost predicate Touches(s: State, s': State, t: nat, i: nat, w: nat, p: nat, d: nat)
  {
    && Sized(s) && Sized(s') && s'.ringSize == s.ringSize
    && OneTask(s.tasks, s'.tasks, t) && OneSubmitter(s.submitters, s'.submitters, i, t)
    && OneWorker(s.workers, s'.workers, w, t) && OneCell(s.ring, s'.ring, p, t)
    && (s'.head == s.head
        || (s'.head == s.head + 1 && s.head < |s.ring| && s.ring[s.head].task == t && Ready(s.ring[s.head])))
    && (forall v :: 0 <= v < |s.deques| && v != d ==> s'.deques[v] == s.deques[v])
    && (d < |s.deques| ==> Keeps(s.deques[d], s'.deques[d], t))
    && Keeps(s.lane, s'.lane, t)
    && (s'.lock == s.lock
        || (w < |s.workers| && (s.lock == Held(w) || s.lock.Free?) && (s'.lock == Held(w) || s'.lock.Free?)))
    && (i < |s.submitters| && OnRing(s.submitters[i]) ==> s.submitters[i].p == p)
    && (p < |s.ring| ==> s.ring[p].producer == i)
    && (d < |s.workers| && d != w ==> !s.workers[d].Scan2?)
  }

  /** Task t left only places that the step touches. */
  ghost predicate Vacates(s: State, s': State, t: nat, i: nat, w: nat, p: nat, d: nat)
  {
    t < |s.tasks| && t < |s'.tasks| && s'.tasks[t].place != s.tasks[t].place ==>
      match s.tasks[t].place
      case Submitting(j) => j == i
      case InRing(q) => q < s'.head
      case InDeque(v) => v == d
      case InHand(v) => v == w
      case OnWorker(v) => v == w
      case _ => true
  }

  /** The touched parts are in order again. */
  ghost predicate Repaired(s': State, t: nat, i: nat, w: nat, p: nat, d: nat)
  {
    && Sized(s') && (t < |s'.tasks| ==> TaskOk(s', t)) && (i < |s'.submitters| ==> SubmitterOk(s', i))
    && (w < |s'.workers| ==> WorkerOk(s', w)) && (p < |s'.ring| ==> CellOk(s', p))
    && (d < |s'.deques| ==> DequeOk(s', d))
    && LaneOk(s') && Counters(s')
  }

  lemma RestTasks(s: State, s': State, t: nat, i: nat, w: nat, p: nat, d: nat)
    requires Inv(s) && Touches(s, s', t, i, w, p, d) && Repaired(s', t, i, w, p, d)
    ensures Tasks(s')
  {
    forall u | 0 <= u < |s'.tasks| && u != t ensures TaskOk(s', u) {
      assert TaskOk(s, u);
      TaskKept(s, s', t, i, w, p, u);
    }
  }

  lemma RestRing(s: State, s': State, t: nat, i: nat, w: nat, p: nat, d: nat)
    requires Inv(s) && Touches(s, s', t, i, w, p, d) && Vacates(s, s', t, i, w, p, d) && Repaired(s', t, i, w, p, d)
    ensures Cells(s') && Submitters(s')
  {
    forall q | 0 <= q < |s'.ring| && q != p ensures CellOk(s', q) {
      assert CellOk(s, q);
      CellKept(s, s', t, i, p, q);
    }
    forall j | 0 <= j < |s'.submitters| && j != i ensures SubmitterOk(s', j) {
      assert SubmitterOk(s, j);
      SubmitterKept(s, s', t, i, p, j);
    }
  }

  lemma RestWorkers(s: State, s': State, t: nat, i: nat, w: nat, p: nat, d: nat)
    requires Inv(s) && Touches(s, s', t, i, w, p, d) && Vacates(s, s', t, i, w, p, d) && Repaired(s', t, i, w, p, d)
    ensures Deques(s') && Workers(s')
  {
    forall v | 0 <= v < |s'.deques| && v != d ensures DequeOk(s', v) {
      assert DequeOk(s, v);
      DequeKept(s, s', t, v);
    }
    forall v | 0 <= v < |s'.workers| && v != w ensures WorkerOk(s', v) {
      assert WorkerOk(s, v);
      WorkerKept(s, s', t, w, v);
    }
  }

  /** A step that repairs what it touches keeps the whole invariant. */
  lemma Rest(s: State, s': State, t: nat, i: nat, w: nat, p: nat, d: nat)
    requires Inv(s) && Touches(s, s', t, i, w, p, d) && Vacates(s, s', t, i, w, p, d) && Repaired(s', t, i, w, p, d)
    ensures Inv(s')
  {
    RestTasks(s, s', t, i, w, p, d);
    RestRing(s, s', t, i, w, p, d);
    RestWorkers(s, s', t, i, w, p, d);
  }

  // ---------------------------------------------------------------- proof: submitters

  lemma EarlyRepairs(s: State, i: nat, ok: bool)
    requires Enabled(s, Act(i, ok)) && SubmitterOk(s, i) && TaskOk(s, s.submitters[i].t)
    requires var pc := s.submitters[i]; pc.Created? || pc.Refused? || (pc.Counted? && !ok) || (pc.Spilling? && !ok)
    ensures TaskOk(ActStep(s, i, ok), s.submitters[i].t) && SubmitterOk(ActStep(s, i, ok), i)
  {
  }

  lemma ActEarly(s: State, i: nat, ok: bool)
    requires Inv(s) && Enabled(s, Act(i, ok))
    requires var pc := s.submitters[i]; pc.Created? || pc.Refused? || (pc.Counted? && !ok) || (pc.Spilling? && !ok)
    ensures Inv(ActStep(s, i, ok))
  {
    var s', t := ActStep(s, i, ok), s.submitters[i].t;
    assert SubmitterOk(s, i) && TaskOk(s, t);
    EarlyRepairs(s, i, ok);
    NumberUpdate(s.tasks, IsCounted, t, s'.tasks[t]);
    LaneKept(s, s', t);
    Rest(s, s', t, i, |s.workers|, |s.ring| + 1, |s.deques|);
  }

  lemma ClaimRepairs(s: State, i: nat)
    requires Enabled(s, Act(i, true)) && s.submitters[i].Counted? && SubmitterOk(s, i) && TaskOk(s, s.submitters[i].t)
    ensures var s' := ActStep(s, i, true);
            TaskOk(s', s.submitters[i].t) && SubmitterOk(s', i) && CellOk(s', |s.ring|)
  {
  }

  lemma ActClaim(s: State, i: nat)
    requires Inv(s) && Enabled(s, Act(i, true)) && s.submitters[i].Counted?
    ensures Inv(ActStep(s, i, true))
  {
    var s', t := ActStep(s, i, true), s.submitters[i].t;
    assert SubmitterOk(s, i) && TaskOk(s, t);
    ClaimRepairs(s, i);
    NumberUpdate(s.tasks, IsCounted, t, s'.tasks[t]);
    NumberAppend(s.ring, IsTallied, Cell(t, Stored, i));
    LaneKept(s, s', t);
    Rest(s, s', t, i, |s.workers|, |s.ring|, |s.deques|);
  }

  lemma RingRepairs(s: State, i: nat, ok: bool)
    requires Enabled(s, Act(i, ok)) && OnRing(s.submitters[i]) && SubmitterOk(s, i)
    requires CellOk(s, s.submitters[i].p) && TaskOk(s, s.submitters[i].t)
    ensures var s' := ActStep(s, i, ok);
            TaskOk(s', s.submitters[i].t) && SubmitterOk(s', i) && CellOk(s', s.submitters[i].p)
  {
  }

  lemma RingTouches(s: State, i: nat, ok: bool)
    requires Enabled(s, Act(i, ok)) && OnRing(s.submitters[i]) && SubmitterOk(s, i)
    ensures var s', t, p := ActStep(s, i, ok), s.submitters[i].t, s.submitters[i].p;
            Touches(s, s', t, i, |s.workers|, p, |s.deques|) && Vacates(s, s', t, i, |s.workers|, p, |s.deques|)
  {
  }

  lemma RingCounters(s: State, i: nat, ok: bool)
    requires Enabled(s, Act(i, ok)) && OnRing(s.submitters[i]) && SubmitterOk(s, i) && Counters(s)
    ensures Counters(ActStep(s, i, ok))
  {
    var s', t, p := ActStep(s, i, ok), s.submitters[i].t, s.submitters[i].p;
    NumberUpdate(s.tasks, IsCounted, t, s'.tasks[t]);
    assert s.tasks[t := s.tasks[t]] == s.tasks;
    NumberUpdate(s.ring, IsTallied, p, s'.ring[p]);
  }

  lemma ActRing(s: State, i: nat, ok: bool)
    requires Inv(s) && Enabled(s, Act(i, ok)) && OnRing(s.submitters[i])
    ensures Inv(ActStep(s, i, ok))
  {
    var s', t, p := ActStep(s, i, ok), s.submitters[i].t, s.submitters[i].p;
    assert SubmitterOk(s, i) && CellOk(s, p) && TaskOk(s, t);
    RingRepairs(s, i, ok);
    RingTouches(s, i, ok);
    RingCounters(s, i, ok);
    LaneKept(s, s', t);
    Rest(s, s', t, i, |s.workers|, p, |s.deques|);
  }

  lemma ActSpill(s: State, i: nat)
    requires Inv(s) && Enabled(s, Act(i, true)) && s.submitters[i].Spilling?
    ensures Inv(ActStep(s, i, true))
  {
    var s', t := ActStep(s, i, true), s.submitters[i].t;
    assert SubmitterOk(s, i) && TaskOk(s, t);
    NumberUpdate(s.tasks, IsCounted, t, s'.tasks[t]);
    LaneGains(s, s', t);
    Rest(s, s', t, i, |s.workers|, |s.ring| + 1, |s.deques|);
  }

  lemma LaneGains(s: State, s': State, t: nat)
    requires LaneOk(s) && s'.lane == s.lane + [t] && OneTask(s.tasks, s'.tasks, t)
    requires !At(s, t, InLane) && At(s', t, InLane)
    ensures LaneOk(s')
  {
    forall k | 0 <= k < |s.lane|
      ensures At(s', s.lane[k], InLane) && s.lane[k] != t
    {
      assert At(s, s.lane[k], InLane);
    }
  }

  lemma StepAct(s: State, i: nat, ok: bool)
    requires Inv(s) && Enabled(s, Act(i, ok))
    ensures Inv(ActStep(s, i, ok))
  {
    var pc := s.submitters[i];
    if OnRing(pc) { ActRing(s, i, ok); }
    else if pc.Counted? && ok { ActClaim(s, i); }
    else if pc.Spilling? && ok { ActSpill(s, i); }
    else { ActEarly(s, i, ok); }
  }

  lemma StepSubmit(s: State, i: nat)
    requires Inv(s) && Enabled(s, Submit(i))
    ensures Inv(Do(s, Submit(i)))
  {
    var s', t := Do(s, Submit(i)), |s.tasks|;
    NumberAppend(s.tasks, IsCounted, s'.tasks[t]);
    LaneKept(s, s', t);
    Rest(s, s', t, i, |s.workers|, |s.ring| + 1, |s.deques|);
  }

  lemma StepLaneSubmit(s: State, urgent: bool)
    requires Inv(s) && Enabled(s, LaneSubmit(urgent))
    ensures Inv(Do(s, LaneSubmit(urgent)))
  {
    var s', t := Do(s, LaneSubmit(urgent)), |s.tasks|;
    NumberAppend(s.tasks, IsCounted, s'.tasks[t]);
    LaneGains(s, s', t);
    Rest(s, s', t, |s.submitters|, |s.workers|, |s.ring| + 1, |s.deques|);
  }

  // ---------------------------------------------------------------- proof: cancellers

  lemma WithoutLoses(xs: seq<nat>, k: nat)
    requires k < |xs| && Distinct(xs)
    ensures Distinct(Without(xs, k)) && xs[k] !in Without(xs, k) && Keeps(xs, Without(xs, k), xs[k])
    ensures forall u :: u in Without(xs, k) ==> u in xs
  {
    forall u | u in xs && u != xs[k] ensures u in Without(xs, k) {
      var j :| 0 <= j < |xs| && xs[j] == u;
      assert Without(xs, k)[if j < k then j else j - 1] == u;
    }
  }

  lemma LaneLoses(s: State, s': State, k: nat)
    requires LaneOk(s) && k < |s.lane| && s'.lane == Without(s.lane, k) && OneTask(s.tasks, s'.tasks, s.lane[k])
    requires |s'.tasks| == |s.tasks|
    ensures LaneOk(s') && Keeps(s.lane, s'.lane, s.lane[k])
  {
    WithoutLoses(s.lane, k);
    forall j | 0 <= j < |s'.lane| ensures At(s', s'.lane[j], InLane) {
      var m := if j < k then j else j + 1;
      assert s'.lane[j] == s.lane[m] && At(s, s.lane[m], InLane);
    }
  }

  lemma CancelIndexed(s: State, t: nat)
    requires Inv(s) && t < |s.tasks| && s.tasks[t].indexed && !s.tasks[t].cancelled
    ensures Inv(CancelStep(s, t))
  {
    var s' := CancelStep(s, t);
    assert TaskOk(s, t);
    NumberUpdate(s.tasks, IsCounted, t, s'.tasks[t]);
    LaneKept(s, s', t);
    Rest(s, s', t, |s.submitters|, |s.workers|, |s.ring| + 1, |s.deques|);
  }

  lemma CancelQueued(s: State, t: nat)
    requires Inv(s) && t < |s.tasks| && !s.tasks[t].indexed && t in s.lane
    ensures Inv(CancelStep(s, t))
  {
    var s', k := CancelStep(s, t), IndexOf(s.lane, t);
    assert At(s, s.lane[k], InLane) && TaskOk(s, t);
    NumberUpdate(s.tasks, IsCounted, t, s'.tasks[t]);
    LaneLoses(s, s', k);
    Rest(s, s', t, |s.submitters|, |s.workers|, |s.ring| + 1, |s.deques|);
  }

  lemma StepCancel(s: State, t: nat)
    requires Inv(s) && Enabled(s, Cancel(t))
    ensures Inv(CancelStep(s, t))
  {
    if s.tasks[t].indexed {
      if !s.tasks[t].cancelled { CancelIndexed(s, t); }
    } else if t in s.lane {
      CancelQueued(s, t);
    }
  }

  // ---------------------------------------------------------------- proof: workers

  /** A worker's move that handles no task. */
  lemma WorkerOnly(s: State, s': State, w: nat)
    requires Inv(s) && w < |s.workers| && |s'.workers| == |s.workers|
    requires s' == Move(s, w, s'.workers[w]).(lock := s'.lock)
    requires !s.workers[w].Commit? && !s.workers[w].Running?
    requires s'.lock == s.lock || ((s.lock == Held(w) || s.lock.Free?) && (s'.lock == Held(w) || s'.lock.Free?))
    requires WorkerOk(s', w)
    ensures Inv(s')
  {
    LaneKept(s, s', |s.tasks|);
    Rest(s, s', |s.tasks|, |s.submitters|, w, |s.ring| + 1, |s.deques|);
  }

  lemma LaneTaken(s: State, w: nat, k: nat)
    requires Inv(s) && w < |s.workers| && k < |s.lane| && s.lane[k] < |s.tasks|
    requires Locked(s.workers[w]) && !s.workers[w].Commit?
    ensures Inv(TakeFromLane(s, w, k))
  {
    var s', t := TakeFromLane(s, w, k), s.lane[k];
    assert At(s, s.lane[k], InLane) && TaskOk(s, t) && WorkerOk(s, w);
    NumberUpdate(s.tasks, IsCounted, t, s'.tasks[t]);
    LaneLoses(s, s', k);
    Rest(s, s', t, |s.submitters|, w, |s.ring| + 1, |s.deques|);
  }

  lemma NewestTaken(s: State, w: nat)
    requires Inv(s) && w < |s.workers| && s.deques[w] != [] && s.deques[w][|s.deques[w]| - 1] < |s.tasks|
    requires Locked(s.workers[w]) && !s.workers[w].Commit?
    ensures Inv(PopNewest(s, w))
  {
    var s', n := PopNewest(s, w), |s.deques[w]| - 1;
    var t := s.deques[w][n];
    assert DequeOk(s, w) && At(s, t, InDeque(w)) && TaskOk(s, t) && WorkerOk(s, w);
    TakeRepairs(s, s', w, t, w);
    NumberUpdate(s.tasks, IsCounted, t, s'.tasks[t]);
    LaneKept(s, s', t);
    assert Without(s.deques[w], n) == s.deques[w][..n];
    DequeLoses(s, s', w, n);
    Rest(s, s', t, |s.submitters|, w, |s.ring| + 1, w);
  }

  lemma DequeLoses(s: State, s': State, d: nat, k: nat)
    requires Sized(s) && Sized(s') && d < |s.deques| && |s'.deques| == |s.deques| && DequeOk(s, d) && k < |s.deques[d]|
    requires s'.deques[d] == Without(s.deques[d], k)
    requires OneTask(s.tasks, s'.tasks, s.deques[d][k]) && |s'.tasks| == |s.tasks|
    ensures DequeOk(s', d) && Keeps(s.deques[d], s'.deques[d], s.deques[d][k])
  {
    var xs := s.deques[d];
    WithoutLoses(xs, k);
    forall j | 0 <= j < |s'.deques[d]| ensures At(s', s'.deques[d][j], InDeque(d)) {
      var m := if j < k then j else j + 1;
      assert s'.deques[d][j] == xs[m] && At(s, xs[m], InDeque(d));
    }
  }

  /** A ring task in a deque, taken in hand, keeps its flags. */
  lemma TakeRepairs(s: State, s': State, w: nat, t: nat, v: nat)
    requires Sized(s) && Sized(s') && w < |s.workers| && At(s, t, InDeque(v)) && TaskOk(s, t) && WorkerOk(s, w)
    requires Locked(s.workers[w]) && !s.workers[w].Commit? && s'.lock == s.lock
    requires s'.workers == s.workers[w := Commit(t)] && s'.tasks == s.tasks[t := s.tasks[t].(place := InHand(w))]
    ensures TaskOk(s', t) && WorkerOk(s', w)
  {
  }

  lemma OldestStolen(s: State, w: nat, d: nat)
    requires Inv(s) && w < |s.workers| && d < |s.workers| && d != w && s.deques[d] != [] && s.deques[d][0] < |s.tasks|
    requires s.workers[w].Scan3?
    ensures Inv(Take(s, w, s.deques[d][0]).(deques := s.deques[d := s.deques[d][1..]]))
  {
    var t := s.deques[d][0];
    var s' := Take(s, w, t).(deques := s.deques[d := s.deques[d][1..]]);
    assert DequeOk(s, d) && At(s, t, InDeque(d)) && TaskOk(s, t) && WorkerOk(s, w) && WorkerOk(s, d);
    TakeRepairs(s, s', w, t, d);
    NumberUpdate(s.tasks, IsCounted, t, s'.tasks[t]);
    LaneKept(s, s', t);
    assert Without(s.deques[d], 0) == s.deques[d][1..];
    DequeLoses(s, s', d, 0);
    Rest(s, s', t, |s.submitters|, w, |s.ring| + 1, d);
  }

  lemma DequeGains(s: State, s': State, d: nat, t: nat)
    requires Sized(s) && Sized(s') && d < |s.deques| && |s'.deques| == |s.deques|
    requires DequeOk(s, d) && |s.deques[d]| < BATCH
    requires s'.deques[d] == s.deques[d] + [t] && OneTask(s.tasks, s'.tasks, t)
    requires !At(s, t, InDeque(d)) && At(s', t, InDeque(d))
    ensures DequeOk(s', d)
  {
    forall k | 0 <= k < |s.deques[d]| ensures At(s', s.deques[d][k], InDeque(d)) && s.deques[d][k] != t {
      assert At(s, s.deques[d][k], InDeque(d));
    }
    forall k | 0 <= k < |s'.deques[d]| ensures At(s', s'.deques[d][k], InDeque(d)) {
      assert k < |s.deques[d]| ==> s'.deques[d][k] == s.deques[d][k];
    }
  }

  lemma Transferred(s: State, w: nat, n: nat)
    requires Inv(s) && w < |s.workers| && s.workers[w] == Scan2(n) && n < BATCH
    requires HeadReady(s) && s.ring[s.head].task < |s.tasks|
    ensures Inv(Transfer(s, w, n))
  {
    var s', t := Transfer(s, w, n), s.ring[s.head].task;
    assert CellOk(s, s.head) && TaskOk(s, t) && WorkerOk(s, w) && DequeOk(s, w);
    NumberUpdate(s.tasks, IsCounted, t, s'.tasks[t]);
    LaneKept(s, s', t);
    DequeGains(s, s', w, t);
    Rest(s, s', t, |s.submitters|, w, |s.ring| + 1, w);
  }

  lemma BoundaryRepairs(s: State, w: nat, t: nat)
    requires Sized(s) && w < |s.workers| && s.workers[w] == Commit(t) && t < |s.tasks| && TaskOk(s, t) && WorkerOk(s, w)
    ensures TaskOk(Boundary(s, w, t), t) && WorkerOk(Boundary(s, w, t), w)
  {
  }

  lemma BoundaryPassed(s: State, w: nat, t: nat)
    requires Inv(s) && w < |s.workers| && s.workers[w] == Commit(t) && t < |s.tasks|
    ensures Inv(Boundary(s, w, t))
  {
    var s' := Boundary(s, w, t);
    assert TaskOk(s, t) && WorkerOk(s, w);
    BoundaryRepairs(s, w, t);
    NumberUpdate(s.tasks, IsCounted, t, s'.tasks[t]);
    LaneKept(s, s', t);
    Rest(s, s', t, |s.submitters|, w, |s.ring| + 1, |s.deques|);
  }

  lemma RunFinished(s: State, w: nat, t: nat)
    requires Inv(s) && w < |s.workers| && s.workers[w] == Running(t) && t < |s.tasks|
    ensures Inv(Move(With(s, t, s.tasks[t].(place := Finished)), w, Top))
  {
    var s' := Move(With(s, t, s.tasks[t].(place := Finished)), w, Top);
    assert TaskOk(s, t) && WorkerOk(s, w);
    NumberUpdate(s.tasks, IsCounted, t, s'.tasks[t]);
    LaneKept(s, s', t);
    Rest(s, s', t, |s.submitters|, w, |s.ring| + 1, |s.deques|);
  }

  /** The worker's next move handles a task. */
  predicate Handles(s: State, w: nat, pick: nat)
    requires Sized(s) && w < |s.workers|
  {
    match s.workers[w]
    case Scan0 => pick < |s.lane|
    case Scan1 => s.deques[w] != []
    case Scan2(n) => pick != 0 || n > 0
    case Scan3 => pick < |s.workers|
    case Scan4 => !HeadReady(s) && s.lane != []
    case Commit(_) => true
    case Running(_) => true
    case _ => false
  }

  lemma StepPlain(s: State, w: nat, pick: nat)
    requires Inv(s) && Enabled(s, Go(w, pick)) && !Handles(s, w, pick)
    ensures Inv(GoStep(s, w, pick))
  {
    assert WorkerOk(s, w);
    PlainShape(s, w, pick);
    WorkerOnly(s, GoStep(s, w, pick), w);
  }

  lemma PlainShape(s: State, w: nat, pick: nat)
    requires Enabled(s, Go(w, pick)) && !Handles(s, w, pick) && WorkerOk(s, w)
    ensures var s' := GoStep(s, w, pick);
            && |s'.workers| == |s.workers| && s' == Move(s, w, s'.workers[w]).(lock := s'.lock) && WorkerOk(s', w)
            && (s'.lock == s.lock || ((s.lock == Held(w) || s.lock.Free?) && (s'.lock == Held(w) || s'.lock.Free?)))
  {
  }

  lemma StepScan2(s: State, w: nat, n: nat, pick: nat)
    requires Inv(s) && Enabled(s, Go(w, pick)) && Handles(s, w, pick) && s.workers[w] == Scan2(n)
    ensures Inv(GoStep(s, w, pick))
  {
    if pick != 0 { Transferred(s, w, n); } else { NewestTaken(s, w); }
  }

  lemma StepHandling(s: State, w: nat, pick: nat)
    requires Inv(s) && Enabled(s, Go(w, pick)) && Handles(s, w, pick)
    ensures Inv(GoStep(s, w, pick))
  {
    match s.workers[w]
    case Scan0 => LaneTaken(s, w, pick);
    case Scan1 => NewestTaken(s, w);
    case Scan2(n) => StepScan2(s, w, n, pick);
    case Scan3 => OldestStolen(s, w, pick);
    case Scan4 => LaneTaken(s, w, pick);
    case Commit(t) => BoundaryPassed(s, w, t);
    case Running(t) => RunFinished(s, w, t);
    case _ =>
  }

  lemma StepGo(s: State, w: nat, pick: nat)
    requires Inv(s) && Enabled(s, Go(w, pick))
    ensures Inv(GoStep(s, w, pick))
  {
    if Handles(s, w, pick) { StepHandling(s, w, pick); } else { StepPlain(s, w, pick); }
  }

  lemma StepShutdown(s: State)
    requires Inv(s)
    ensures Inv(s.(shutdown := true))
  {
    var s' := s.(shutdown := true);
    LaneKept(s, s', |s.tasks|);
    Rest(s, s', |s.tasks|, |s.submitters|, |s.workers|, |s.ring| + 1, |s.deques|);
  }

  /** Every step of every thread keeps the invariant. */
  lemma InvStep(s: State, s': State)
    requires Inv(s) && Next(s, s')
    ensures Inv(s')
  {
    var a :| Enabled(s, a) && s' == Do(s, a);
    match a
    case Submit(i) => StepSubmit(s, i);
    case Act(i, ok) => StepAct(s, i, ok);
    case LaneSubmit(urgent) => StepLaneSubmit(s, urgent);
    case Cancel(t) => StepCancel(s, t);
    case Shutdown => StepShutdown(s);
    case Go(w, pick) => StepGo(s, w, pick);
  }

  lemma InitInv(s: State)
    requires Init(s)
    ensures Inv(s)
  {
    forall w | 0 <= w < |s.workers| ensures WorkerOk(s, w) && DequeOk(s, w) {}
  }

  lemma Reachable(r: seq<State>)
    requires IsRun(Init, Next, r)
    ensures forall i :: 0 <= i < |r| ==> Inv(r[i])
  {
    forall s | Init(s) ensures Inv(s) { InitInv(s); }
    forall s, s' | Inv(s) && Next(s, s') ensures Inv(s') { InvStep(s, s'); }
    RunKeeps(Init, Next, Inv, r);
  }

  lemma InvAt(r: seq<State>, k: nat)
    requires IsRun(Init, Next, r) && k < |r|
    ensures Inv(r[k])
  {
    Reachable(r);
  }

  // ---------------------------------------------------------------- theorems: conservation

  /** `t` is found at its place, once, and nowhere else. */
  ghost predicate OnlyAt(s: State, t: nat, place: Place)
    requires Sized(s)
  {
    && (forall p :: s.head <= p < |s.ring| ==> (s.ring[p].task == t <==> place == InRing(p)))
    && (forall w :: 0 <= w < |s.deques| ==> Distinct(s.deques[w]) && (t in s.deques[w] <==> place == InDeque(w)))
    && Distinct(s.lane) && (t in s.lane <==> place == InLane)
    && (forall w :: 0 <= w < |s.workers| ==> (s.workers[w] == Commit(t) <==> place == InHand(w)))
    && (forall w :: 0 <= w < |s.workers| ==> (s.workers[w] == Running(t) <==> place == OnWorker(w)))
  }

  /** In every reachable state every task is in exactly one place: a ring cell, a deque, the lanes, a
      worker's hand, running, over, or still with its submitter. */
  lemma ExactlyOnePlace(r: seq<State>, k: nat, t: nat)
    requires IsRun(Init, Next, r) && k < |r| && t < |r[k].tasks|
    ensures Sized(r[k]) && OnlyAt(r[k], t, r[k].tasks[t].place)
  {
    InvAt(r, k);
    var s := r[k];
    assert TaskOk(s, t);
    forall p | s.head <= p < |s.ring|
      ensures s.ring[p].task == t <==> s.tasks[t].place == InRing(p)
    {
      assert CellOk(s, p);
    }
    forall w | 0 <= w < |s.deques|
      ensures Distinct(s.deques[w]) && (t in s.deques[w] <==> s.tasks[t].place == InDeque(w))
    {
      assert DequeOk(s, w);
      if t in s.deques[w] {
        var j :| 0 <= j < |s.deques[w]| && s.deques[w][j] == t;
        assert At(s, s.deques[w][j], InDeque(w));
      }
    }
    if t in s.lane { var j :| 0 <= j < |s.lane| && s.lane[j] == t; assert At(s, s.lane[j], InLane); }
    forall w | 0 <= w < |s.workers|
      ensures (s.workers[w] == Commit(t) <==> s.tasks[t].place == InHand(w))
      ensures (s.workers[w] == Running(t) <==> s.tasks[t].place == OnWorker(w))
    {
      assert WorkerOk(s, w);
    }
  }

  /** Queued and not cancelled: in the ring, a deque or a worker's hand without a cancellation, or in the lanes. */
  predicate Queued(x: Task)
  {
    x.place.InLane? || (x.viaRing && !x.cancelled && (x.place.InRing? || x.place.InDeque? || x.place.InHand?))
  }

  /** Its submitter has incremented `queue_len` and not yet entered it in the ring or taken it back. */
  predicate MidPublish(s: State, x: Task)
  {
    x.place.Submitting? && (PcOf(s, x).Counted? || PcOf(s, x).Refused?)
  }

  /** `queue_len` is the number of queued, uncancelled tasks plus the submitters in the middle of publishing. */
  lemma QueueLenCountsPending(r: seq<State>, k: nat)
    requires IsRun(Init, Next, r) && k < |r|
    ensures var s := r[k];
            s.queueLen == |set t | 0 <= t < |s.tasks| && (Queued(s.tasks[t]) || MidPublish(s, s.tasks[t]))|
  {
    InvAt(r, k);
    var s := r[k];
    NumberSet(s.tasks, IsCounted);
    forall t | 0 <= t < |s.tasks| ensures s.tasks[t].counted <==> Queued(s.tasks[t]) || MidPublish(s, s.tasks[t]) {
      assert TaskOk(s, t);
    }
    assert Those(s.tasks, IsCounted)
        == (set t | 0 <= t < |s.tasks| && (Queued(s.tasks[t]) || MidPublish(s, s.tasks[t])));
  }

  lemma {:induction false} NoSizes(ds: seq<seq<nat>>, w: nat)
    requires Sizes(ds) == 0 && w < |ds|
    ensures ds[w] == []
  {
    if w < |ds| - 1 { NoSizes(ds[..|ds| - 1], w); }
  }

  /** With no submitter in flight, the shutdown exit test means that ring, deques and lanes are empty. */
  lemma ExitMeansEmpty(r: seq<State>, k: nat)
    requires IsRun(Init, Next, r) && k < |r| && ExitTest(r[k])
    requires forall i :: 0 <= i < |r[k].submitters| ==> r[k].submitters[i].Idle?
    ensures r[k].head == |r[k].ring| && r[k].lane == []
    ensures forall w :: 0 <= w < |r[k].deques| ==> r[k].deques[w] == []
  {
    InvAt(r, k);
    var s := r[k];
    forall p | 0 <= p < |s.ring| ensures s.ring[p].stage.Tallied? { assert CellOk(s, p); }
    NumberPrefix(s.ring, IsTallied, |s.ring|);
    NumberAtMost(s.ring, IsTallied);
    forall w | 0 <= w < |s.deques| ensures s.deques[w] == [] { NoSizes(s.deques, w); }
    if s.lane != [] {
      assert At(s, s.lane[0], InLane) && TaskOk(s, s.lane[0]);
      NumberUpdate(s.tasks, IsCounted, s.lane[0], s.tasks[s.lane[0]]);
    }
  }

  // ---------------------------------------------------------------- theorems: cancel against run

  /** In every reachable state: no task was both started and cancelled with OK, each happened at most once,
      and a task that went through the ring is added to `queue_len` once and subtracted at most once,
      exactly once as soon as it was started or cancelled. */
  lemma CancelExcludesRun(r: seq<State>, k: nat, t: nat)
    requires IsRun(Init, Next, r) && k < |r| && t < |r[k].tasks|
    ensures var x := r[k].tasks[t];
            && x.runs <= 1 && x.oks <= 1 && !(x.runs > 0 && x.oks > 0)
            && (x.viaRing ==> x.adds == 1 && x.subs == if x.runs > 0 || x.oks > 0 then 1 else 0)
  {
    InvAt(r, k);
    assert TaskOk(r[k], t);
  }

  /** History only grows. */
  ghost predicate Remembers(s: State, s': State, t: nat)
    requires t < |s.tasks|
  {
    |s.tasks| <= |s'.tasks| && s.tasks[t].runs <= s'.tasks[t].runs && s.tasks[t].oks <= s'.tasks[t].oks
  }

  lemma ActRemembers(s: State, i: nat, ok: bool, t: nat)
    requires Enabled(s, Act(i, ok)) && t < |s.tasks|
    ensures Remembers(s, ActStep(s, i, ok), t)
  {
    match s.submitters[i]
    case Created(_) =>
    case Counted(_) =>
    case Claimed(_, _) =>
    case Refused(_) =>
    case Spilling(_) =>
    case _ =>
  }

  lemma GoRemembers(s: State, w: nat, pick: nat, t: nat)
    requires Enabled(s, Go(w, pick)) && t < |s.tasks|
    ensures Remembers(s, GoStep(s, w, pick), t)
  {
    if Handles(s, w, pick) { HandlingRemembers(s, w, pick, t); } else { PlainRemembers(s, w, pick); }
  }

  lemma HandlingRemembers(s: State, w: nat, pick: nat, t: nat)
    requires Enabled(s, Go(w, pick)) && t < |s.tasks| && Handles(s, w, pick)
    ensures Remembers(s, GoStep(s, w, pick), t)
  {
  }

  lemma PlainRemembers(s: State, w: nat, pick: nat)
    requires Enabled(s, Go(w, pick)) && !Handles(s, w, pick)
    ensures GoStep(s, w, pick).tasks == s.tasks
  {
  }

  lemma StepRemembers(s: State, s': State, t: nat)
    requires Next(s, s') && t < |s.tasks|
    ensures Remembers(s, s', t)
  {
    var a :| Enabled(s, a) && s' == Do(s, a);
    match a
    case Act(i, ok) => ActRemembers(s, i, ok, t);
    case Go(w, pick) => GoRemembers(s, w, pick, t);
    case _ =>
  }

  lemma {:induction false} RunRemembers(r: seq<State>, k: nat, m: nat, t: nat)
    requires IsRun(Init, Next, r) && k <= m < |r| && t < |r[k].tasks|
    ensures Remembers(r[k], r[m], t)
  {
    if k < m {
      RunRemembers(r, k, m - 1, t);
      StepAt(Init, Next, r, m);
      StepRemembers(r[m - 1], r[m], t);
    }
  }

  /** A task whose cancel was told OK is never started afterwards, and a task that was started is never
      cancelled with OK afterwards. */
  lemma CancelOrRunForGood(r: seq<State>, k: nat, m: nat, t: nat)
    requires IsRun(Init, Next, r) && k <= m < |r| && t < |r[k].tasks|
    ensures |r[k].tasks| <= |r[m].tasks|
    ensures r[k].tasks[t].oks > 0 ==> r[m].tasks[t].runs == 0
    ensures r[k].tasks[t].runs > 0 ==> r[m].tasks[t].oks == 0
  {
    RunRemembers(r, k, m, t);
    CancelExcludesRun(r, m, t);
  }

  // ---------------------------------------------------------------- theorems: size of the cancel index

  function RingTasks(cs: seq<Cell>, a: nat, b: nat): (r: set<nat>)
    requires a <= b <= |cs|
    ensures |r| <= b - a && forall p :: a <= p < b ==> cs[p].task in r
  {
    if a == b then {} else RingTasks(cs, a, b - 1) + {cs[b - 1].task}
  }

  function Members(xs: seq<nat>): (r: set<nat>)
    ensures |r| <= |xs| && forall x :: x in xs ==> x in r
  {
    if xs == [] then {} else Members(xs[..|xs| - 1]) + {xs[|xs| - 1]}
  }

  function DequeTasks(ds: seq<seq<nat>>): (r: set<nat>)
    ensures |r| <= Sizes(ds) && forall w, x :: 0 <= w < |ds| && x in ds[w] ==> x in r
  {
    if ds == [] then {} else DequeTasks(ds[..|ds| - 1]) + Members(ds[|ds| - 1])
  }

  lemma {:induction false} SizesBound(ds: seq<seq<nat>>)
    requires forall w :: 0 <= w < |ds| ==> |ds[w]| <= BATCH
    ensures Sizes(ds) <= BATCH * |ds|
  {
    if ds != [] { SizesBound(ds[..|ds| - 1]); }
  }

  /** The task in the hand of the lock holder. */
  function InHands(s: State): (r: set<nat>)
    ensures |r| <= 1
  {
    if s.lock.Held? && s.lock.w < |s.workers| && s.workers[s.lock.w].Commit? then {s.workers[s.lock.w].t} else {}
  }

  lemma OneHand(s: State, t: nat)
    requires Inv(s) && t < |s.tasks| && s.tasks[t].place.InHand?
    ensures t in InHands(s)
  {
    assert TaskOk(s, t);
    assert WorkerOk(s, s.tasks[t].place.w);
  }

  /** The tasks whose ids are in the cancel index. */
  ghost function IndexedTasks(s: State): set<nat>
  {
    set t | 0 <= t < |s.tasks| && s.tasks[t].indexed
  }

  lemma FewIndexed(s: State)
    requires Inv(s)
    ensures |IndexedTasks(s)| < s.ringSize + |s.workers| * DEQUE_CAPACITY
  {
    var ids := IndexedTasks(s);
    var a, b, c := RingTasks(s.ring, s.head, |s.ring|), DequeTasks(s.deques), InHands(s);
    forall t | t in ids ensures t in a + b + c {
      assert TaskOk(s, t);
      if s.tasks[t].place.InHand? { OneHand(s, t); }
    }
    SubsetSize(ids, a + b + c);
    UnionSize(a + b, c);
    UnionSize(a, b);
    forall w | 0 <= w < |s.deques| ensures |s.deques[w]| <= BATCH { assert DequeOk(s, w); }
    SizesBound(s.deques);
  }

  /** They are always fewer than the ring slots and the deque slots together, which is what the capacity of the
      index is chosen to cover. */
  lemma IndexFits(r: seq<State>, k: nat)
    requires IsRun(Init, Next, r) && k < |r|
    ensures |IndexedTasks(r[k])| < r[k].ringSize + |r[k].workers| * DEQUE_CAPACITY
  {
    InvAt(r, k);
    FewIndexed(r[k]);
  }
}
