/** The bound on `queue_len`: the submit funnel (`enqueue_task`, `wait_for_space`, the ring, spill and lane
    paths) against workers and cancellers, which only lower it.  Steps: each atomic access, and each stretch of
    a critical section between two accesses to `queue_len`. */
module Capacity {
  import opened Collections
  import opened Runs
  import opened Codes

  datatype Submitter =
    | Idle(last: Rc)             // outside; the result of the last call
    | Entered(block: bool)       // shutdown was not set; about to compare with the capacity
    | Waiting                    // wait_for_space, about to test its loop condition under the lock
    | Asleep                     // on space_cond
    | Cleared                    // the comparison passed
    | Counted                    // ring path: queue_len incremented, about to try the ring
    | Refused                    // the ring refused: about to decrement again
    | Spilling                   // about to lock for the spill
    | LockCleared                // spill or lane path: re-checked under the lock, about to increment

  /** `capacity` is not 0 (0 means unbounded).  `bypasses` is history: how often wait_for_space let a
      submitter through although the queue was full. */
  datatype State = State(capacity: nat, queueLen: int, shutdown: bool, submitters: seq<Submitter>, bypasses: nat)

  datatype Step =
    | Enter(i: nat, block: bool)
    | Compare(i: nat)
    | TestSpace(i: nat)
    | Wake(i: nat, timedOut: bool)
    | Count(i: nat)              // ring path
    | Ring(i: nat, ok: bool)
    | Uncount(i: nat)
    | Recheck(i: nat)            // under the lock, from the lane path or the spill
    | Enqueue(i: nat)
    | Drain                      // a worker or a canceller subtracts one
    | Shutdown

  predicate Enabled(s: State, a: Step)
  {
    match a
    case Enter(i, _) => i < |s.submitters| && s.submitters[i].Idle?
    case Compare(i) => i < |s.submitters| && s.submitters[i].Entered?
    case TestSpace(i) => i < |s.submitters| && s.submitters[i].Waiting?
    case Wake(i, _) => i < |s.submitters| && s.submitters[i].Asleep?
    case Count(i) => i < |s.submitters| && s.submitters[i].Cleared?
    case Ring(i, _) => i < |s.submitters| && s.submitters[i].Counted?
    case Uncount(i) => i < |s.submitters| && s.submitters[i].Refused?
    case Recheck(i) => i < |s.submitters| && (s.submitters[i].Cleared? || s.submitters[i].Spilling?)
    case Enqueue(i) => i < |s.submitters| && s.submitters[i].LockCleared?
    case Drain => s.queueLen > 0
    case Shutdown => true
  }

  predicate Full(s: State)
  {
    s.queueLen >= s.capacity
  }

  function Sub(s: State, i: nat, pc: Submitter): State
    requires i < |s.submitters|
  {
    s.(submitters := s.submitters[i := pc])
  }

  function Do(s: State, a: Step): State
    requires Enabled(s, a)
  {
    match a
    case Enter(i, block) => Sub(s, i, if s.shutdown then Idle(SHUTDOWN) else Entered(block))
    case Compare(i) =>
      Sub(s, i, if !Full(s) then Cleared else if s.submitters[i].block then Waiting else Idle(INVALID))
    case TestSpace(i) =>
      if Full(s) && !s.shutdown then Sub(s, i, Asleep)
      else Sub(s, i, Cleared).(bypasses := if Full(s) then s.bypasses + 1 else s.bypasses)
    case Wake(i, timedOut) =>
      Sub(s, i, if s.shutdown then Idle(SHUTDOWN) else if timedOut then Idle(TIMEOUT) else Waiting)
    case Count(i) => Sub(s, i, Counted).(queueLen := s.queueLen + 1)
    case Ring(i, ok) => Sub(s, i, if ok then Idle(OK) else Refused)
    case Uncount(i) => Sub(s, i, Spilling).(queueLen := s.queueLen - 1)
    case Recheck(i) => Sub(s, i, if s.shutdown then Idle(SHUTDOWN) else if Full(s) then Idle(INVALID) else LockCleared)
    case Enqueue(i) => Sub(s, i, Idle(OK)).(queueLen := s.queueLen + 1)
    case Drain => s.(queueLen := s.queueLen - 1)
    case Shutdown => s.(shutdown := true)
  }

  predicate Init(s: State)
  {
    && s.capacity > 0 && s.queueLen == 0 && !s.shutdown && s.bypasses == 0
    && forall i :: 0 <= i < |s.submitters| ==> s.submitters[i] == Idle(OK)
  }

  ghost predicate Next(s: State, s': State)
  {
    exists a :: Enabled(s, a) && s' == Do(s, a)
  }

  // ---------------------------------------------------------------- the bound

  /** About to increment without looking again. */
  predicate Committed(p: Submitter)
  {
    p.Cleared? || p.LockCleared?
  }

  /** Past the shutdown check and not yet past wait_for_space. */
  predicate MayBypass(p: Submitter)
  {
    p.Entered? || p.Waiting? || p.Asleep?
  }

  ghost predicate LengthOk(s: State)
  {
    s.queueLen + NumberOf(s.submitters, Committed) <= s.capacity + |s.submitters| - 1 + s.bypasses
  }

  /** Nobody is let through before shutdown, and afterwards at most those who had entered before it. */
  ghost predicate BypassOk(s: State)
  {
    if s.shutdown then s.bypasses + NumberOf(s.submitters, MayBypass) <= |s.submitters| else s.bypasses == 0
  }

  ghost predicate Inv(s: State)
  {
    BypassOk(s) && (s.submitters != [] ==> LengthOk(s))
  }

  lemma LengthStep(s: State, a: Step)
    requires Inv(s) && Enabled(s, a) && s.submitters != []
    ensures LengthOk(Do(s, a))
  {
    if !a.Drain? && !a.Shutdown? {
      var s' := Do(s, a);
      NumberUpdate(s.submitters, Committed, a.i, s'.submitters[a.i]);
      NumberAtMost(s'.submitters, Committed);
    }
  }

  lemma BypassStep(s: State, a: Step)
    requires Inv(s) && Enabled(s, a)
    ensures BypassOk(Do(s, a))
  {
    var s' := Do(s, a);
    NumberAtMost(s'.submitters, MayBypass);
    if !a.Drain? && !a.Shutdown? { NumberUpdate(s.submitters, MayBypass, a.i, s'.submitters[a.i]); }
  }

  lemma InvStep(s: State, s': State)
    requires Inv(s) && Next(s, s')
    ensures Inv(s')
  {
    var a :| Enabled(s, a) && s' == Do(s, a);
    BypassStep(s, a);
    if s.submitters != [] { LengthStep(s, a); }
  }

  lemma Reachable(r: seq<State>)
    requires IsRun(Init, Next, r)
    ensures forall i :: 0 <= i < |r| ==> Inv(r[i])
  {
    forall s | Init(s) ensures Inv(s) { NumberNone(s.submitters, Committed); }
    forall s, s' | Inv(s) && Next(s, s') ensures Inv(s') { InvStep(s, s'); }
    RunKeeps(Init, Next, Inv, r);
  }

  /** P submitters exceed the capacity by at most P - 1 as long as the pool is not shut down, and by at most
      2P - 1 ever. */
  lemma CapacityBound(r: seq<State>, k: nat)
    requires IsRun(Init, Next, r) && k < |r| && |r[k].submitters| > 0
    ensures !r[k].shutdown ==> r[k].queueLen <= r[k].capacity + |r[k].submitters| - 1
    ensures r[k].queueLen <= r[k].capacity + 2 * |r[k].submitters| - 1
  {
    Reachable(r);
  }

  /** A single submitter stays within the capacity until the pool is shut down. */
  lemma SingleSubmitterWithin(r: seq<State>, k: nat)
    requires IsRun(Init, Next, r) && k < |r| && |r[k].submitters| == 1
    ensures !r[k].shutdown ==> r[k].queueLen <= r[k].capacity
    ensures r[k].queueLen <= r[k].capacity + 1
  {
    CapacityBound(r, k);
  }

  // ---------------------------------------------------------------- the bounds are reached

  lemma Took(r: seq<State>, a: Step, s': State) returns (r': seq<State>)
    requires IsRun(Init, Next, r) && Enabled(r[|r| - 1], a) && s' == Do(r[|r| - 1], a)
    ensures IsRun(Init, Next, r') && r'[|r'| - 1] == s'
  {
    r' := r + [s'];
    assert Next(r[|r| - 1], s');
    Extended(Init, Next, r, s');
  }

  /** All submitters make the same move, one after the other. */
  datatype Wave = Entering(block: bool) | Passing | Blocking | Counting | Publishing | LetThrough

  function Before(w: Wave): Submitter
  {
    match w
    case Entering(_) => Idle(OK)
    case Passing => Entered(false)
    case Blocking => Entered(true)
    case Counting => Cleared
    case Publishing => Counted
    case LetThrough => Waiting
  }

  function After(w: Wave): Submitter
  {
    match w
    case Entering(block) => Entered(block)
    case Passing => Cleared
    case Blocking => Waiting
    case Counting => Counted
    case Publishing => Idle(OK)
    case LetThrough => Cleared
  }

  function MoveOf(w: Wave, i: nat): Step
  {
    match w
    case Entering(block) => Enter(i, block)
    case Passing => Compare(i)
    case Blocking => Compare(i)
    case Counting => Step.Count(i)
    case Publishing => Ring(i, true)
    case LetThrough => TestSpace(i)
  }

  /** When the move has that outcome. */
  predicate Fits(w: Wave, c: nat, n: nat, shutdown: bool)
  {
    match w
    case Entering(_) => !shutdown
    case Passing => n < c
    case Blocking => n >= c
    case LetThrough => n >= c && shutdown
    case _ => true
  }

  /** The first j of p submitters have moved. */
  function Row(p: nat, j: nat, w: Wave): seq<Submitter>
  {
    seq(p, i => if i < j then After(w) else Before(w))
  }

  function Midway(c: nat, n: nat, shutdown: bool, p: nat, j: nat, w: Wave, b: nat): State
  {
    State(c, if w.Counting? then n + j else n, shutdown, Row(p, j, w), if w.LetThrough? then b + j else b)
  }

  lemma OneMoves(c: nat, n: nat, shutdown: bool, p: nat, j: nat, w: Wave, b: nat)
    requires j < p && Fits(w, c, n, shutdown)
    ensures Enabled(Midway(c, n, shutdown, p, j, w, b), MoveOf(w, j))
    ensures Do(Midway(c, n, shutdown, p, j, w, b), MoveOf(w, j)) == Midway(c, n, shutdown, p, j + 1, w, b)
  {
    assert Row(p, j, w)[j] == Before(w);
    assert Row(p, j, w)[j := After(w)] == Row(p, j + 1, w);
  }

  lemma {:induction false} AllMove(r: seq<State>, c: nat, n: nat, shutdown: bool, p: nat, j: nat, w: Wave, b: nat)
    returns (r': seq<State>)
    requires IsRun(Init, Next, r) && j <= p && Fits(w, c, n, shutdown)
    requires r[|r| - 1] == Midway(c, n, shutdown, p, j, w, b)
    ensures IsRun(Init, Next, r') && r'[|r'| - 1] == Midway(c, n, shutdown, p, p, w, b)
    decreases p - j
  {
    if j == p {
      r' := r;
    } else {
      OneMoves(c, n, shutdown, p, j, w, b);
      r' := Took(r, MoveOf(w, j), Midway(c, n, shutdown, p, j + 1, w, b));
      r' := AllMove(r', c, n, shutdown, p, j + 1, w, b);
    }
  }

  function All(p: nat, pc: Submitter): seq<Submitter>
  {
    seq(p, _ => pc)
  }

  lemma RowEnds(p: nat, w: Wave)
    ensures Row(p, 0, w) == All(p, Before(w)) && Row(p, p, w) == All(p, After(w))
  {
  }

  /** One wave, from all at its start to all at its end. */
  lemma Whole(r: seq<State>, c: nat, n: nat, shutdown: bool, p: nat, w: Wave, b: nat) returns (r': seq<State>)
    requires IsRun(Init, Next, r) && Fits(w, c, n, shutdown)
    requires r[|r| - 1] == State(c, n, shutdown, All(p, Before(w)), b)
    ensures IsRun(Init, Next, r')
    ensures r'[|r'| - 1] ==
      State(c, if w.Counting? then n + p else n, shutdown, All(p, After(w)), if w.LetThrough? then b + p else b)
  {
    RowEnds(p, w);
    r' := AllMove(r, c, n, shutdown, p, 0, w, b);
  }

  /** The first submitter fills the queue to one below the capacity. */
  lemma {:induction false} Filled(c: nat, n: nat, p: nat) returns (r: seq<State>)
    requires n < c && p > 0
    ensures IsRun(Init, Next, r) && r[|r| - 1] == State(c, n, false, All(p, Idle(OK)), 0)
  {
    if n == 0 {
      r := [State(c, 0, false, All(p, Idle(OK)), 0)];
    } else {
      r := Filled(c, n - 1, p);
      var ps := All(p, Idle(OK));
      r := Took(r, Enter(0, false), State(c, n - 1, false, ps[0 := Entered(false)], 0));
      r := Took(r, Compare(0), State(c, n - 1, false, ps[0 := Entered(false)][0 := Cleared], 0));
      r := Took(r, Step.Count(0), State(c, n, false, ps[0 := Entered(false)][0 := Cleared][0 := Counted], 0));
      assert ps[0 := Entered(false)][0 := Cleared][0 := Counted][0 := Idle(OK)] == ps;
      r := Took(r, Ring(0, true), State(c, n, false, ps, 0));
    }
  }

  /** All pass the comparison together: capacity + P - 1, without shutdown. */
  lemma PlainBoundReached(c: nat, p: nat) returns (r: seq<State>)
    requires c > 0 && p > 0
    ensures IsRun(Init, Next, r) && r[|r| - 1] == State(c, c + p - 1, false, All(p, Idle(OK)), 0)
  {
    r := Filled(c, c - 1, p);
    r := Whole(r, c, c - 1, false, p, Entering(false), 0);
    r := Whole(r, c, c - 1, false, p, Passing, 0);
    r := Whole(r, c, c - 1, false, p, Counting, 0);
    r := Whole(r, c, c + p - 1, false, p, Publishing, 0);
  }

  /** Then all block, the pool is shut down, and wait_for_space lets every one of them through the full queue. */
  lemma ShutdownOverruns(c: nat, p: nat) returns (r: seq<State>)
    requires c > 0 && p > 0
    ensures IsRun(Init, Next, r)
    ensures r[|r| - 1] == State(c, c + 2 * p - 1, true, All(p, Idle(OK)), p)
  {
    var n := c + p - 1;
    r := PlainBoundReached(c, p);
    r := Whole(r, c, n, false, p, Entering(true), 0);
    r := Whole(r, c, n, false, p, Blocking, 0);
    r := Took(r, Shutdown, State(c, n, true, All(p, Waiting), 0));
    r := Whole(r, c, n, true, p, LetThrough, 0);
    r := Whole(r, c, n, true, p, Counting, p);
    r := Whole(r, c, n + p, true, p, Publishing, p);
  }

  ghost predicate Overruns(r: seq<State>, c: nat, p: nat, shutdown: bool)
  {
    && IsRun(Init, Next, r) && r[|r| - 1].capacity == c && |r[|r| - 1].submitters| == p
    && r[|r| - 1].shutdown == shutdown && r[|r| - 1].queueLen > c + p - 1
  }

  /** Some run of P submitters ends above capacity + P - 1, with shutdown set or not as given. */
  ghost predicate CanOverrun(c: nat, p: nat, shutdown: bool)
  {
    exists r :: Overruns(r, c, p, shutdown)
  }

  /** For every capacity and number of submitters the plain bound can be exceeded if and only if shutdown is set. */
  lemma OverrunIffShutdown(c: nat, p: nat, shutdown: bool)
    requires c > 0 && p > 0
    ensures CanOverrun(c, p, shutdown) <==> shutdown
  {
    if shutdown {
      var r := ShutdownOverruns(c, p);
      assert Overruns(r, c, p, shutdown);
    } else {
      forall r: seq<State> | IsRun(Init, Next, r) ensures !Overruns(r, c, p, shutdown) {
        if |r[|r| - 1].submitters| == p { CapacityBound(r, |r| - 1); }
      }
    }
  }
}
