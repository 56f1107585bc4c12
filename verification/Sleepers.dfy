/** Sleeping pool coroutines: the hand-over between workers, timer heap, ready FIFOs, the timer thread and a
    canceller.  Allocations succeed.  Steps: each `timer_lock` or `coro_lock` section, and each stretch of
    a `pool->lock` section between two of them.  A resumed coroutine is one step with any outcome. */
module Sleepers {
  import opened Collections
  import opened Runs

  datatype Place =
    | Active                 // being run by its worker, or about to be started
    | InHand                 // taken off the FIFO by its worker, not yet resumed
    | InHeap
    | InFifo
    | WithCanceller          // taken off the heap, not yet in the FIFO
    | WithTimer              // the same for the timer thread, if its section were split
    | Done

  datatype Coro = Coro(owner: nat, place: Place, cancelled: bool)

  datatype Worker =
    | Top
    | Locked                 // holds the pool lock, step C0
    | ExitA                  // the FIFO was empty; the exit test may begin
    | ExitB                  // the timer heap was seen empty
    | Scan                   // the rest of the pass
    | Holding(c: nat)        // has c off the FIFO, pool lock released
    | Running(c: nat)
    | Yielding(c: nat)       // c has registered its sleep; control returns to the worker
    | Exited

  datatype Agent = Idle | Hand(c: nat)

  datatype Lock = Free | ByWorker(w: nat) | ByCanceller

  /** `joint`: the timer thread pops and pushes in one `timer_lock` section, as the code does. */
  datatype State = State(
    joint: bool,
    coros: seq<Coro>,
    heap: set<nat>,
    fifos: seq<seq<nat>>,
    shutdown: bool,
    lock: Lock,
    workers: seq<Worker>,
    canceller: Agent,
    timer: Agent)

  datatype Outcome = Suspends | Sleeps | Ends

  datatype Step =
    | Go(w: nat, choice: bool)            // next action of worker w; choice: the counters allow the exit test,
                                          // or a new coroutine task is found
    | Resumed(w: nat, how: Outcome)
    | Due(c: nat)                         // the timer thread finds c due
    | TimerPush                           // only when not joint
    | CancelTake(c: nat)                  // cancel_by_id
    | CancelPush
    | CancelMark(c: nat)                  // cancel by argument marks the entry in the heap
    | Shutdown

  predicate Sized(s: State)
  {
    |s.fifos| == |s.workers|
  }

  predicate Known(s: State, c: nat)
  {
    c < |s.coros| && s.coros[c].owner < |s.workers|
  }

  predicate Enabled(s: State, a: Step)
  {
    && Sized(s)
    && match a
       case Go(w, choice) =>
         && w < |s.workers| && !s.workers[w].Running? && !s.workers[w].Exited?
         && (s.workers[w].Top? ==> s.lock.Free?)
         && (s.workers[w].Locked? && s.fifos[w] != [] ==> Known(s, s.fifos[w][0]))
         && (s.workers[w].Holding? ==> Known(s, s.workers[w].c))
       case Resumed(w, how) => w < |s.workers| && s.workers[w].Running? && Known(s, s.workers[w].c)
       case Due(c) => c in s.heap && Known(s, c) && s.timer.Idle?
       case TimerPush => s.timer.Hand? && Known(s, s.timer.c)
       case CancelTake(c) => s.lock.Free? && !s.shutdown && c in s.heap && Known(s, c) && s.canceller.Idle?
       case CancelPush => s.canceller.Hand? && Known(s, s.canceller.c)
       case CancelMark(c) => s.lock.Free? && !s.shutdown && c in s.heap && Known(s, c)
       case Shutdown => s.lock.Free?
  }

  function Put(s: State, c: nat, place: Place): State
    requires c < |s.coros|
  {
    s.(coros := s.coros[c := s.coros[c].(place := place)])
  }

  function Move(s: State, w: nat, pc: Worker): State
    requires w < |s.workers|
  {
    s.(workers := s.workers[w := pc])
  }

  /** To the tail of the owner's FIFO. */
  function Ready(s: State, c: nat): State
    requires Sized(s) && Known(s, c)
  {
    var w := s.coros[c].owner;
    Put(s, c, InFifo).(fifos := s.fifos[w := s.fifos[w] + [c]])
  }

  function GoStep(s: State, w: nat, choice: bool): State
    requires Enabled(s, Go(w, choice))
  {
    match s.workers[w]
    case Top => Move(s, w, Locked).(lock := ByWorker(w))
    case Locked =>
      if s.fifos[w] == [] then Move(s, w, ExitA)
      else Move(Put(s, s.fifos[w][0], InHand), w, Holding(s.fifos[w][0]))
             .(fifos := s.fifos[w := s.fifos[w][1..]], lock := Free)
    case ExitA => if s.shutdown && choice && s.heap == {} then Move(s, w, ExitB) else Move(s, w, Scan)
    case ExitB => if s.fifos[w] == [] then Move(s, w, Exited).(lock := Free) else Move(s, w, Scan)
    case Scan =>
      if choice then Move(s, w, Running(|s.coros|)).(lock := Free, coros := s.coros + [Coro(w, Active, false)])
      else Move(s, w, Top).(lock := Free)
    case Holding(c) =>
      if s.coros[c].cancelled then Move(Put(s, c, Done), w, Top) else Move(Put(s, c, Active), w, Running(c))
    case Yielding(_) => Move(s, w, Top)
    case _ => s
  }

  function Do(s: State, a: Step): State
    requires Enabled(s, a)
  {
    match a
    case Go(w, choice) => GoStep(s, w, choice)
    case Resumed(w, how) =>
      var c := s.workers[w].c;
      (match how
       case Suspends => Move(Put(s, c, InFifo), w, Top).(fifos := s.fifos[w := s.fifos[w] + [c]])
       case Sleeps => Move(Put(s, c, InHeap), w, Yielding(c)).(heap := s.heap + {c})
       case Ends => Move(Put(s, c, Done), w, Top))
    case Due(c) =>
      if s.joint then Ready(s, c).(heap := s.heap - {c})
      else Put(s, c, WithTimer).(heap := s.heap - {c}, timer := Hand(c))
    case TimerPush => Ready(s, s.timer.c).(timer := Idle)
    case CancelTake(c) => Put(s, c, WithCanceller).(heap := s.heap - {c}, lock := ByCanceller, canceller := Hand(c))
    case CancelPush =>
      var c := s.canceller.c;
      Ready(s.(coros := s.coros[c := s.coros[c].(cancelled := true)]), c).(lock := Free, canceller := Idle)
    case CancelMark(c) => s.(coros := s.coros[c := s.coros[c].(cancelled := true)])
    case Shutdown => s.(shutdown := true)
  }

  predicate Fresh(s: State)
  {
    && s.coros == [] && s.heap == {} && !s.shutdown && s.lock.Free? && s.canceller.Idle? && s.timer.Idle?
    && |s.fifos| == |s.workers| && forall w :: 0 <= w < |s.workers| ==> s.workers[w].Top? && s.fifos[w] == []
  }

  predicate Init(s: State)
  {
    Fresh(s) && s.joint
  }

  ghost predicate Next(s: State, s': State)
  {
    exists a :: Enabled(s, a) && s' == Do(s, a)
  }

  // ---------------------------------------------------------------- invariant

  /** The coroutine is where its place says. */
  ghost predicate CoroOk(s: State, c: nat)
    requires Sized(s) && c < |s.coros|
  {
    var x := s.coros[c];
    && x.owner < |s.workers|
    && (x.place.InHeap? <==> c in s.heap)
    && match x.place
       case Active => s.workers[x.owner] == Running(c)
       case InHand => s.workers[x.owner] == Holding(c)
       case InFifo => c in s.fifos[x.owner]
       case WithCanceller => s.canceller == Hand(c)
       case WithTimer => false
       case _ => true
  }

  ghost predicate At(s: State, c: nat, w: nat, place: Place)
  {
    c < |s.coros| && s.coros[c].owner == w && s.coros[c].place == place
  }

  ghost predicate FifoOk(s: State, w: nat)
    requires Sized(s) && w < |s.fifos|
  {
    Distinct(s.fifos[w]) && forall k :: 0 <= k < |s.fifos[w]| ==> At(s, s.fifos[w][k], w, InFifo)
  }

  predicate Locks(w: Worker)
  {
    w.Locked? || w.ExitA? || w.ExitB? || w.Scan?
  }

  ghost predicate WorkerOk(s: State, w: nat)
    requires Sized(s) && w < |s.workers|
  {
    && (Locks(s.workers[w]) <==> s.lock == ByWorker(w))
    && (s.workers[w].Running? ==> At(s, s.workers[w].c, w, Active))
    && (s.workers[w].Holding? ==> At(s, s.workers[w].c, w, InHand))
  }

  /** What the exit test has established about the coroutines of w. */
  ghost predicate OwnedOk(s: State, c: nat)
    requires Sized(s) && c < |s.coros|
  {
    s.coros[c].owner < |s.workers| ==>
      var w := s.workers[s.coros[c].owner];
      (w.ExitB? ==> !s.coros[c].place.InHeap?) && (w.Exited? ==> s.coros[c].place.Done?)
  }

  ghost predicate Inv(s: State)
  {
    && Sized(s) && s.joint && s.timer.Idle?
    && (s.canceller.Hand? <==> s.lock.ByCanceller?)
    && (s.canceller.Hand? ==> s.canceller.c < |s.coros| && s.coros[s.canceller.c].place.WithCanceller?)
    && (forall c {:trigger CoroOk(s, c)} :: 0 <= c < |s.coros| ==> CoroOk(s, c))
    && (forall c {:trigger OwnedOk(s, c)} :: 0 <= c < |s.coros| ==> OwnedOk(s, c))
    && (forall w {:trigger FifoOk(s, w)} :: 0 <= w < |s.fifos| ==> FifoOk(s, w))
    && (forall w {:trigger WorkerOk(s, w)} :: 0 <= w < |s.workers| ==> WorkerOk(s, w))
    && (forall c :: c in s.heap ==> c < |s.coros|)
  }

  // ---------------------------------------------------------------- proof: what a step leaves alone

  ghost predicate Keeps(xs: seq<nat>, ys: seq<nat>, c: nat)
  {
    forall x :: x in xs && x != c ==> x in ys
  }

  /** What a step may touch: coroutine c, worker w, FIFO f (no index: none). */
  ghost predicate Touches(s: State, s': State, c: nat, w: nat, f: nat)
  {
    && Sized(s) && Sized(s') && s'.joint == s.joint && s'.timer == s.timer && |s'.workers| == |s.workers|
    && (|s'.coros| == |s.coros| || (|s'.coros| == |s.coros| + 1 && c == |s.coros|))
    && (forall x :: 0 <= x < |s.coros| && x != c ==> s'.coros[x] == s.coros[x])
    && (c < |s.coros| ==> s'.coros[c].owner == s.coros[c].owner)
    && (forall v :: 0 <= v < |s.workers| && v != w ==> s'.workers[v] == s.workers[v])
    && (w < |s.workers| && (s.workers[w].Running? || s.workers[w].Holding?) ==> s.workers[w].c == c)
    && (forall v :: 0 <= v < |s.fifos| && v != f ==> s'.fifos[v] == s.fifos[v])
    && (f < |s.fifos| ==> Keeps(s.fifos[f], s'.fifos[f], c))
    && s'.heap - {c} == s.heap - {c}
    && (forall v :: 0 <= v < |s.workers| && v != w ==> (s'.lock == ByWorker(v) <==> s.lock == ByWorker(v)))
    && (s.canceller.Hand? ==> s'.canceller == s.canceller || s.canceller.c == c)
  }

  /** Coroutine c left only places that the step touches. */
  ghost predicate Vacates(s: State, s': State, c: nat, w: nat, f: nat)
  {
    c < |s.coros| && c < |s'.coros| && s'.coros[c].place != s.coros[c].place ==>
      match s.coros[c].place
      case Active => s.coros[c].owner == w
      case InHand => s.coros[c].owner == w
      case InFifo => s.coros[c].owner == f
      case _ => true
  }

  ghost predicate Repaired(s': State, c: nat, w: nat, f: nat)
  {
    && Sized(s') && (c < |s'.coros| ==> CoroOk(s', c) && OwnedOk(s', c))
    && (w < |s'.workers| ==> WorkerOk(s', w)) && (f < |s'.fifos| ==> FifoOk(s', f))
    && (s'.canceller.Hand? <==> s'.lock.ByCanceller?)
    && (s'.canceller.Hand? ==> s'.canceller.c < |s'.coros| && s'.coros[s'.canceller.c].place.WithCanceller?)
    && (forall x :: x in s'.heap ==> x < |s'.coros|)
    && (w < |s'.workers| && (s'.workers[w].ExitB? || s'.workers[w].Exited?) ==>
          forall x {:trigger OwnedOk(s', x)} :: 0 <= x < |s'.coros| ==> OwnedOk(s', x))
  }

  lemma RestCoros(s: State, s': State, c: nat, w: nat, f: nat)
    requires Inv(s) && Touches(s, s', c, w, f) && Repaired(s', c, w, f)
    ensures forall x {:trigger CoroOk(s', x)} :: 0 <= x < |s'.coros| ==> CoroOk(s', x)
    ensures forall x {:trigger OwnedOk(s', x)} :: 0 <= x < |s'.coros| ==> OwnedOk(s', x)
  {
    forall x | 0 <= x < |s'.coros| && x != c ensures CoroOk(s', x) && OwnedOk(s', x) {
      assert CoroOk(s, x) && OwnedOk(s, x);
      assert x in s'.heap - {c} <==> x in s.heap - {c};
    }
  }

  lemma RestWorkers(s: State, s': State, c: nat, w: nat, f: nat)
    requires Inv(s) && Touches(s, s', c, w, f) && Vacates(s, s', c, w, f) && Repaired(s', c, w, f)
    ensures forall v {:trigger FifoOk(s', v)} :: 0 <= v < |s'.fifos| ==> FifoOk(s', v)
    ensures forall v {:trigger WorkerOk(s', v)} :: 0 <= v < |s'.workers| ==> WorkerOk(s', v)
  {
    forall v | 0 <= v < |s'.fifos| && v != f ensures FifoOk(s', v) {
      assert FifoOk(s, v);
      forall k | 0 <= k < |s.fifos[v]|
        ensures At(s', s.fifos[v][k], v, InFifo)
      {
        assert At(s, s.fifos[v][k], v, InFifo);
      }
    }
    forall v | 0 <= v < |s'.workers| && v != w ensures WorkerOk(s', v) { assert WorkerOk(s, v); }
  }

  /** A step that repairs what it touches keeps the whole invariant. */
  lemma Rest(s: State, s': State, c: nat, w: nat, f: nat)
    requires Inv(s) && Touches(s, s', c, w, f) && Vacates(s, s', c, w, f) && Repaired(s', c, w, f)
    ensures Inv(s')
  {
    RestCoros(s, s', c, w, f);
    RestWorkers(s, s', c, w, f);
  }

  lemma FifoGains(s: State, s': State, f: nat, c: nat)
    requires Sized(s) && Sized(s') && f < |s.fifos| && |s'.fifos| == |s.fifos|
    requires FifoOk(s, f) && s'.fifos[f] == s.fifos[f] + [c]
    requires |s'.coros| == |s.coros| && (forall x :: 0 <= x < |s.coros| && x != c ==> s'.coros[x] == s.coros[x])
    requires !At(s, c, f, InFifo) && At(s', c, f, InFifo)
    ensures FifoOk(s', f)
  {
    forall k | 0 <= k < |s.fifos[f]| ensures At(s', s.fifos[f][k], f, InFifo) && s.fifos[f][k] != c {
      assert At(s, s.fifos[f][k], f, InFifo);
    }
    forall k | 0 <= k < |s'.fifos[f]| ensures At(s', s'.fifos[f][k], f, InFifo) {
      assert k < |s.fifos[f]| ==> s'.fifos[f][k] == s.fifos[f][k];
    }
  }

  // ---------------------------------------------------------------- proof: the steps

  lemma StepPopReady(s: State, w: nat, choice: bool)
    requires Inv(s) && Enabled(s, Go(w, choice)) && s.workers[w].Locked? && s.fifos[w] != []
    ensures Inv(GoStep(s, w, choice))
  {
    var s', c := GoStep(s, w, choice), s.fifos[w][0];
    assert FifoOk(s, w) && At(s, c, w, InFifo) && CoroOk(s, c) && OwnedOk(s, c) && WorkerOk(s, w);
    assert s.fifos[w] == [c] + s.fifos[w][1..];
    forall k | 0 <= k < |s'.fifos[w]|
      ensures At(s', s'.fifos[w][k], w, InFifo)
    {
      assert At(s, s.fifos[w][k + 1], w, InFifo);
    }
    Rest(s, s', c, w, w);
  }

  /** Moves of a worker without a coroutine in hand. */
  lemma StepPlain(s: State, w: nat, choice: bool)
    requires Inv(s) && Enabled(s, Go(w, choice))
    requires var pc := s.workers[w];
             pc.Top? || (pc.Locked? && s.fifos[w] == []) || pc.Yielding? || (pc.Scan? && !choice)
    ensures Inv(GoStep(s, w, choice))
  {
    assert WorkerOk(s, w);
    Rest(s, GoStep(s, w, choice), |s.coros|, w, |s.fifos|);
  }

  /** The first half of the exit test: an empty heap means that no coroutine of w sleeps. */
  lemma StepExitA(s: State, w: nat, choice: bool)
    requires Inv(s) && Enabled(s, Go(w, choice)) && s.workers[w].ExitA?
    ensures Inv(GoStep(s, w, choice))
  {
    var s' := GoStep(s, w, choice);
    assert WorkerOk(s, w);
    forall x | 0 <= x < |s.coros| ensures OwnedOk(s', x) { assert CoroOk(s, x) && OwnedOk(s, x); }
    Rest(s, s', |s.coros|, w, |s.fifos|);
  }

  /** The second half: an empty FIFO then means that w owns nothing any more. */
  lemma StepExitB(s: State, w: nat, choice: bool)
    requires Inv(s) && Enabled(s, Go(w, choice)) && s.workers[w].ExitB?
    ensures Inv(GoStep(s, w, choice))
  {
    var s' := GoStep(s, w, choice);
    assert WorkerOk(s, w);
    forall x | 0 <= x < |s.coros| ensures OwnedOk(s', x) { assert CoroOk(s, x) && OwnedOk(s, x); }
    Rest(s, s', |s.coros|, w, |s.fifos|);
  }

  lemma StepStart(s: State, w: nat)
    requires Inv(s) && Enabled(s, Go(w, true)) && s.workers[w].Scan?
    ensures Inv(GoStep(s, w, true))
  {
    assert WorkerOk(s, w);
    Rest(s, GoStep(s, w, true), |s.coros|, w, |s.fifos|);
  }

  lemma StepHolding(s: State, w: nat, choice: bool)
    requires Inv(s) && Enabled(s, Go(w, choice)) && s.workers[w].Holding?
    ensures Inv(GoStep(s, w, choice))
  {
    var c := s.workers[w].c;
    assert WorkerOk(s, w) && CoroOk(s, c) && OwnedOk(s, c);
    HoldingRepairs(s, w, choice);
    Rest(s, GoStep(s, w, choice), c, w, |s.fifos|);
  }

  lemma HoldingRepairs(s: State, w: nat, choice: bool)
    requires Enabled(s, Go(w, choice)) && s.workers[w].Holding? && WorkerOk(s, w) && CoroOk(s, s.workers[w].c)
    ensures var s', c := GoStep(s, w, choice), s.workers[w].c;
            CoroOk(s', c) && OwnedOk(s', c) && WorkerOk(s', w)
  {
  }

  lemma StepResumed(s: State, w: nat, how: Outcome)
    requires Inv(s) && Enabled(s, Resumed(w, how))
    ensures Inv(Do(s, Resumed(w, how)))
  {
    var s', c := Do(s, Resumed(w, how)), s.workers[w].c;
    assert WorkerOk(s, w) && CoroOk(s, c) && OwnedOk(s, c) && FifoOk(s, w);
    if how.Suspends? {
      FifoGains(s, s', w, c);
      Rest(s, s', c, w, w);
    } else {
      Rest(s, s', c, w, |s.fifos|);
    }
  }

  lemma StepDue(s: State, c: nat)
    requires Inv(s) && Enabled(s, Due(c))
    ensures Inv(Do(s, Due(c)))
  {
    var s', f := Do(s, Due(c)), s.coros[c].owner;
    assert CoroOk(s, c) && OwnedOk(s, c) && FifoOk(s, f);
    FifoGains(s, s', f, c);
    Rest(s, s', c, |s.workers|, f);
  }

  lemma StepCancelTake(s: State, c: nat)
    requires Inv(s) && Enabled(s, CancelTake(c))
    ensures Inv(Do(s, CancelTake(c)))
  {
    assert CoroOk(s, c) && OwnedOk(s, c);
    forall v | 0 <= v < |s.workers| ensures !Locks(s.workers[v]) { assert WorkerOk(s, v); }
    Rest(s, Do(s, CancelTake(c)), c, |s.workers|, |s.fifos|);
  }

  lemma StepCancelPush(s: State)
    requires Inv(s) && Enabled(s, CancelPush)
    ensures Inv(Do(s, CancelPush))
  {
    var s', c := Do(s, CancelPush), s.canceller.c;
    var f := s.coros[c].owner;
    assert CoroOk(s, c) && OwnedOk(s, c) && FifoOk(s, f);
    FifoGains(s, s', f, c);
    Rest(s, s', c, |s.workers|, f);
  }

  lemma StepMark(s: State, c: nat)
    requires Inv(s) && Enabled(s, CancelMark(c))
    ensures Inv(Do(s, CancelMark(c)))
  {
    assert CoroOk(s, c) && OwnedOk(s, c);
    Rest(s, Do(s, CancelMark(c)), c, |s.workers|, |s.fifos|);
  }

  lemma StepGo(s: State, w: nat, choice: bool)
    requires Inv(s) && Enabled(s, Go(w, choice))
    ensures Inv(GoStep(s, w, choice))
  {
    match s.workers[w]
    case ExitA => StepExitA(s, w, choice);
    case ExitB => StepExitB(s, w, choice);
    case Holding(_) => StepHolding(s, w, choice);
    case Locked => if s.fifos[w] == [] { StepPlain(s, w, choice); } else { StepPopReady(s, w, choice); }
    case Scan => if choice { StepStart(s, w); } else { StepPlain(s, w, choice); }
    case _ => StepPlain(s, w, choice);
  }

  lemma InvStep(s: State, s': State)
    requires Inv(s) && Next(s, s')
    ensures Inv(s')
  {
    var a :| Enabled(s, a) && s' == Do(s, a);
    match a
    case Go(w, choice) => StepGo(s, w, choice);
    case Resumed(w, how) => StepResumed(s, w, how);
    case Due(c) => StepDue(s, c);
    case TimerPush => assert false;
    case CancelTake(c) => StepCancelTake(s, c);
    case CancelPush => StepCancelPush(s);
    case CancelMark(c) => StepMark(s, c);
    case Shutdown => Rest(s, s', |s.coros|, |s.workers|, |s.fifos|);
  }

  lemma Reachable(r: seq<State>)
    requires IsRun(Init, Next, r)
    ensures forall i :: 0 <= i < |r| ==> Inv(r[i])
  {
    forall s | Init(s) ensures Inv(s) {
      forall w | 0 <= w < |s.workers| ensures WorkerOk(s, w) && FifoOk(s, w) {}
    }
    forall s, s' | Inv(s) && Next(s, s') ensures Inv(s') { InvStep(s, s'); }
    RunKeeps(Init, Next, Inv, r);
  }

  // ---------------------------------------------------------------- theorems

  /** Every coroutine that is parked sits once in the heap or once in its owner's FIFO, never in both and never in
      another FIFO; the only other place is the hand of a canceller that holds the pool lock. */
  lemma ParkedInOnePlace(r: seq<State>, k: nat, c: nat)
    requires IsRun(Init, Next, r) && k < |r| && c < |r[k].coros|
    ensures Sized(r[k])
    ensures var s, x := r[k], r[k].coros[c];
            && (c in s.heap <==> x.place.InHeap?)
            && (forall w :: 0 <= w < |s.fifos| ==>
                 Distinct(s.fifos[w]) && (c in s.fifos[w] <==> x.place.InFifo? && x.owner == w))
            && (s.canceller == Hand(c) <==> x.place.WithCanceller?) && (x.place.WithCanceller? ==> s.lock.ByCanceller?)
            && !x.place.WithTimer?
  {
    Reachable(r);
    var s := r[k];
    assert CoroOk(s, c);
    forall w | 0 <= w < |s.fifos|
      ensures Distinct(s.fifos[w]) && (c in s.fifos[w] <==> s.coros[c].place.InFifo? && s.coros[c].owner == w)
    {
      assert FifoOk(s, w);
      if c in s.fifos[w] {
        var j :| 0 <= j < |s.fifos[w]| && s.fifos[w][j] == c;
        assert At(s, s.fifos[w][j], w, InFifo);
      }
    }
  }

  /** A coroutine is taken off a FIFO and resumed only by the worker that owns it. */
  lemma ResumedByOwner(r: seq<State>, k: nat, w: nat)
    requires IsRun(Init, Next, r) && k < |r| && w < |r[k].workers|
    ensures var pc := r[k].workers[w];
            pc.Running? || pc.Holding? ==> pc.c < |r[k].coros| && r[k].coros[pc.c].owner == w
  {
    Reachable(r);
    assert WorkerOk(r[k], w);
  }

  /** A worker that took the shutdown exit owns no parked or unfinished coroutine. */
  lemma NoExitWhileParked(r: seq<State>, k: nat, c: nat)
    requires IsRun(Init, Next, r) && k < |r| && c < |r[k].coros|
    ensures r[k].coros[c].owner < |r[k].workers|
    ensures r[k].workers[r[k].coros[c].owner].Exited? ==> r[k].coros[c].place.Done?
  {
    Reachable(r);
    assert CoroOk(r[k], c) && OwnedOk(r[k], c);
  }

  // ---------------------------------------------------------------- why pop and push are one section

  lemma Took(r: seq<State>, a: Step, s': State) returns (r': seq<State>)
    requires IsRun(Fresh, Next, r) && Enabled(r[|r| - 1], a) && s' == Do(r[|r| - 1], a)
    ensures IsRun(Fresh, Next, r') && r'[|r'| - 1] == s'
  {
    r' := r + [s'];
    assert Next(r[|r| - 1], s');
    Extended(Fresh, Next, r, s');
  }

  /** One worker puts its first coroutine to sleep. */
  lemma OneRuns() returns (r: seq<State>)
    ensures IsRun(Fresh, Next, r)
    ensures r[|r| - 1] == State(false, [Coro(0, Active, false)], {}, [[]], false, Free, [Running(0)], Idle, Idle)
  {
    var s0 := State(false, [], {}, [[]], false, Free, [Top], Idle, Idle);
    var s1 := s0.(workers := [Locked], lock := ByWorker(0));
    r := Took([s0], Go(0, false), s1);
    r := Took(r, Go(0, false), s1.(workers := [ExitA]));
    r := Took(r, Go(0, false), s1.(workers := [Scan]));
    var s4 := s0.(workers := [Running(0)], coros := [Coro(0, Active, false)]);
    r := Took(r, Go(0, true), s4);
  }

  lemma OneSleeps() returns (r: seq<State>)
    ensures IsRun(Fresh, Next, r)
    ensures r[|r| - 1] == State(false, [Coro(0, InHeap, false)], {0}, [[]], false, Free, [Top], Idle, Idle)
  {
    r := OneRuns();
    var s4 := State(false, [Coro(0, Active, false)], {}, [[]], false, Free, [Running(0)], Idle, Idle);
    var s5 := s4.(workers := [Yielding(0)], coros := [Coro(0, InHeap, false)], heap := {0});
    r := Took(r, Resumed(0, Sleeps), s5);
    r := Took(r, Go(0, false), s5.(workers := [Top]));
  }

  /** If the timer thread released `timer_lock` between pop and push, a worker could leave a coroutine behind. */
  lemma SplitStrands() returns (r: seq<State>)
    ensures IsRun(Fresh, Next, r)
    ensures var s := r[|r| - 1];
            && !s.joint && |s.workers| == 1 && s.workers[0].Exited?
            && |s.coros| == 1 && s.coros[0].owner == 0 && !s.coros[0].place.Done?
  {
    r := OneSleeps();
    var s0 := r[|r| - 1];
    var s1 := s0.(shutdown := true);
    r := Took(r, Shutdown, s1);
    var s2 := s1.(coros := [Coro(0, WithTimer, false)], heap := {}, timer := Hand(0));
    r := Took(r, Due(0), s2);
    var s3 := s2.(workers := [Locked], lock := ByWorker(0));
    r := Took(r, Go(0, true), s3);
    r := Took(r, Go(0, true), s3.(workers := [ExitA]));
    r := Took(r, Go(0, true), s3.(workers := [ExitB]));
    r := Took(r, Go(0, true), s3.(workers := [Exited], lock := Free));
  }
}
