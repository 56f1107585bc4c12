/** What the shutdown exit of one worker means for the rest of the run: `worker_entry`'s exit test against
    submitters that passed the shutdown check of `enqueue_task` before the flag was set. */
module PoolExit {
  import opened Collections
  import opened Runs
  import opened Pool

  /** Nothing queued anywhere. */
  ghost predicate Drained(s: State)
  {
    s.head == |s.ring| && s.lane == [] && forall w :: 0 <= w < |s.deques| ==> s.deques[w] == []
  }

  /** Past the shutdown check, before the ring claim. */
  predicate MayClaim(pc: Submitter)
  {
    pc.Created? || pc.Counted?
  }

  ghost predicate NoneMayClaim(s: State)
  {
    forall i :: 0 <= i < |s.submitters| ==> !MayClaim(s.submitters[i])
  }

  // ---------------------------------------------------------------- while a worker makes its exit test

  ghost predicate Testing(s: State, w: nat)
    requires w < |s.workers|
  {
    && (s.workers[w].Test2? || s.workers[w].Exited? ==> s.shutdown)
    && (s.workers[w].Test2? ==> s.lane == [])
  }

  /** A worker between the two halves of its test sees the lanes empty: they change only under the lock it holds. */
  ghost predicate Late(s: State)
  {
    Inv(s) && s.ringSize > 0 && forall w {:trigger Testing(s, w)} :: 0 <= w < |s.workers| ==> Testing(s, w)
  }

  lemma NothingCounted(s: State)
    requires Inv(s) && s.queueLen == 0
    ensures s.lane == []
  {
    if s.lane != [] {
      assert At(s, s.lane[0], InLane) && TaskOk(s, s.lane[0]);
      NumberUpdate(s.tasks, IsCounted, s.lane[0], s.tasks[s.lane[0]]);
    }
  }

  /** A move of worker v changes no other worker; the lanes only from `Scan0` and `Scan4`, under the lock. */
  lemma GoFrame(s: State, v: nat, pick: nat)
    requires Enabled(s, Go(v, pick))
    ensures
      var s' := GoStep(s, v, pick);
      && s'.workers == s.workers[v := s'.workers[v]] && s'.shutdown == s.shutdown && s'.ringSize == s.ringSize
      && s'.submitters == s.submitters && (Locked(s.workers[v]) || s'.lane == s.lane)
      && (s'.workers[v].Test2? ==> s.workers[v].Test? && s.shutdown && s.queueLen == 0 && s'.lane == s.lane)
      && (s'.workers[v].Exited? ==> s.workers[v].Test2?)
  {
    match s.workers[v]
    case Test =>
    case Test2 =>
    case Scan1 =>
    case Scan2(_) =>
    case Scan3 =>
    case Commit(_) =>
    case _ =>
  }

  lemma LateGo(s: State, v: nat, pick: nat)
    requires Late(s) && Enabled(s, Go(v, pick))
    ensures var s' := GoStep(s, v, pick);
            s'.ringSize > 0 && forall w {:trigger Testing(s', w)} :: 0 <= w < |s'.workers| ==> Testing(s', w)
  {
    var s' := GoStep(s, v, pick);
    GoFrame(s, v, pick);
    if s'.workers[v].Test2? { NothingCounted(s); }
    assert WorkerOk(s, v) && Testing(s, v);
    forall w | 0 <= w < |s'.workers| ensures Testing(s', w) { assert WorkerOk(s, w) && Testing(s, w); }
  }

  lemma LateOther(s: State, a: Step)
    requires Late(s) && Enabled(s, a) && !a.Go?
    ensures var s' := Do(s, a);
            s'.ringSize > 0 && forall w {:trigger Testing(s', w)} :: 0 <= w < |s'.workers| ==> Testing(s', w)
  {
    var s' := Do(s, a);
    forall w | 0 <= w < |s'.workers| ensures Testing(s', w) { assert WorkerOk(s, w) && Testing(s, w); }
  }

  lemma LateStep(s: State, s': State)
    requires Late(s) && Next(s, s')
    ensures Late(s')
  {
    InvStep(s, s');
    var a :| Enabled(s, a) && s' == Do(s, a);
    if a.Go? { LateGo(s, a.w, a.pick); } else { LateOther(s, a); }
  }

  lemma LateAt(r: seq<State>, k: nat)
    requires IsRun(Init, Next, r) && k < |r|
    ensures Late(r[k])
  {
    forall s | Init(s) ensures Late(s) {
      InitInv(s);
      forall w | 0 <= w < |s.workers| ensures Testing(s, w) {}
    }
    forall s, s' | Late(s) && Next(s, s') ensures Late(s') { LateStep(s, s'); }
    RunKeeps(Init, Next, Late, r);
  }

  // ---------------------------------------------------------------- after an exit

  /** Shut down, nothing queued, nobody about to claim and no task in a worker's hand. */
  ghost predicate Settled(s: State)
  {
    && Sized(s) && s.shutdown && Drained(s) && NoneMayClaim(s)
    && forall w :: 0 <= w < |s.workers| ==> !s.workers[w].Commit?
  }

  lemma SettledGo(s: State, v: nat, pick: nat)
    requires Settled(s) && Enabled(s, Go(v, pick))
    ensures Settled(GoStep(s, v, pick))
  {
  }

  lemma SettledStep(s: State, s': State)
    requires Settled(s) && Next(s, s')
    ensures Settled(s')
  {
    var a :| Enabled(s, a) && s' == Do(s, a);
    if a.Go? { SettledGo(s, a.w, a.pick); }
    else if a.Act? { assert !MayClaim(s.submitters[a.i]); }
  }

  /** Worker w leaves between k - 1 and k. */
  ghost predicate Leaves(r: seq<State>, k: nat, w: nat)
  {
    0 < k < |r| && w < |r[k - 1].workers| == |r[k].workers| && r[k - 1].workers[w].Test2? && r[k].workers[w].Exited?
  }

  lemma OnlyOwnSteps(s: State, a: Step, w: nat)
    requires Enabled(s, a) && w < |s.workers| && !(a.Go? && a.w == w)
    ensures w < |Do(s, a).workers| && Do(s, a).workers[w] == s.workers[w]
  {
    if a.Go? { GoFrame(s, a.w, a.pick); }
  }

  lemma TestPassed(s: State, w: nat, pick: nat)
    requires Late(s) && Enabled(s, Go(w, pick)) && s.workers[w].Test2? && GoStep(s, w, pick).workers[w].Exited?
    ensures s.shutdown && s.lane == [] && s.ringCount == 0 && GoStep(s, w, pick) == Move(s, w, Exited).(lock := Free)
    ensures forall d :: 0 <= d < |s.deques| ==> s.deques[d] == []
    ensures forall v :: 0 <= v < |s.workers| ==> !s.workers[v].Commit?
  {
    assert WorkerOk(s, w) && Testing(s, w);
    forall d | 0 <= d < |s.deques| ensures s.deques[d] == [] { NoSizes(s.deques, d); }
    forall v | 0 <= v < |s.workers| ensures !s.workers[v].Commit? { assert WorkerOk(s, v); }
  }

  /** Shut down, lanes and deques empty, the ring count zero and no task in a worker's hand. */
  ghost predicate Vacant(s: State)
  {
    && s.shutdown && s.lane == [] && s.ringCount == 0 && (forall d :: 0 <= d < |s.deques| ==> s.deques[d] == [])
    && forall v :: 0 <= v < |s.workers| ==> !s.workers[v].Commit?
  }

  lemma LeavingStep(s: State, s': State, w: nat)
    requires Late(s) && Next(s, s') && w < |s.workers| == |s'.workers|
    requires s.workers[w].Test2? && s'.workers[w].Exited?
    ensures Late(s') && Vacant(s')
  {
    LateStep(s, s');
    var a :| Enabled(s, a) && s' == Do(s, a);
    if !(a.Go? && a.w == w) { OnlyOwnSteps(s, a, w); }
    TestPassed(s, w, a.pick);
  }

  lemma LeavingState(r: seq<State>, k: nat, w: nat)
    requires IsRun(Init, Next, r) && Leaves(r, k, w)
    ensures Late(r[k]) && Vacant(r[k])
  {
    LateAt(r, k - 1);
    StepAt(Init, Next, r, k);
    LeavingStep(r[k - 1], r[k], w);
  }

  ghost predicate From(s: State, x: State)
  {
    x == s
  }

  /** Whatever happens from `s` on, nothing is ever queued again. */
  ghost predicate StaysDrained(s: State)
  {
    forall q: seq<State> :: IsRun((x: State) => From(s, x), Next, q) ==> Drained(q[|q| - 1])
  }

  lemma SettledStays(s: State)
    requires Settled(s)
    ensures StaysDrained(s)
  {
    forall q: seq<State> | IsRun((x: State) => From(s, x), Next, q) ensures Drained(q[|q| - 1]) {
      forall x, y | Settled(x) && Next(x, y) ensures Settled(y) { SettledStep(x, y); }
      RunKeeps((x: State) => From(s, x), Next, Settled, q);
    }
  }

  lemma Acts(s: State, i: nat, ok: bool, q: seq<State>) returns (q': seq<State>)
    requires IsRun((x: State) => From(s, x), Next, q) && Enabled(q[|q| - 1], Act(i, ok))
    ensures IsRun((x: State) => From(s, x), Next, q') && q'[|q'| - 1] == ActStep(q[|q| - 1], i, ok)
  {
    assert Next(q[|q| - 1], Do(q[|q| - 1], Act(i, ok)));
    Extended((x: State) => From(s, x), Next, q, Do(q[|q| - 1], Act(i, ok)));
    q' := q + [Do(q[|q| - 1], Act(i, ok))];
  }

  /** A submitter that may claim does claim: the ring has room. */
  lemma ClaimFollows(s: State, i: nat) returns (q: seq<State>)
    requires Late(s) && s.head == |s.ring| && i < |s.submitters| && MayClaim(s.submitters[i])
    ensures IsRun((x: State) => From(s, x), Next, q) && !Drained(q[|q| - 1])
  {
    q := [s];
    assert SubmitterOk(s, i);
    if s.submitters[i].Created? { q := Acts(s, i, true, q); }
    q := Acts(s, i, true, q);
  }

  /** After a worker took the shutdown exit, ring, deques and lanes stay empty for the rest of every run exactly
      if the ring is empty then and no submitter is between the shutdown check and its claim. */
  lemma ExitFinalIff(r: seq<State>, k: nat, w: nat)
    requires IsRun(Init, Next, r) && Leaves(r, k, w)
    ensures StaysDrained(r[k]) <==> r[k].head == |r[k].ring| && NoneMayClaim(r[k])
  {
    var s := r[k];
    LeavingState(r, k, w);
    if s.head == |s.ring| && NoneMayClaim(s) {
      SettledStays(s);
    } else if s.head == |s.ring| {
      var i :| 0 <= i < |s.submitters| && MayClaim(s.submitters[i]);
      var q := ClaimFollows(s, i);
    } else {
      var q := [s];
      assert IsRun((x: State) => From(s, x), Next, q) && !Drained(q[|q| - 1]);
    }
  }

  // ---------------------------------------------------------------- the tasks

  /** Finished, cancelled or refused. */
  predicate Over(place: Place)
  {
    place.Finished? || place.Dropped? || place.CancelledInLane? || place.Rejected?
  }

  lemma SettledFrom(r: seq<State>, k: nat, m: nat)
    requires IsRun(Init, Next, r) && k <= m < |r| && Settled(r[k])
    ensures Settled(r[m])
  {
    forall s, s' | Settled(s) && Next(s, s') ensures Settled(s') { SettledStep(s, s'); }
    RunKeepsFrom(Init, Next, Settled, r, k);
  }

  /** A task of a settled state is over, running, or with a submitter the ring has refused. */
  lemma SettledTask(s: State, t: nat)
    requires Inv(s) && Settled(s) && t < |s.tasks|
    ensures var place := s.tasks[t].place;
            || Over(place)
            || (place.OnWorker? && place.w < |s.workers| && s.workers[place.w] == Running(t))
            || (place.Submitting? && (PcOf(s, s.tasks[t]) == Refused(t) || PcOf(s, s.tasks[t]) == Spilling(t)))
  {
    assert TaskOk(s, t);
  }

  lemma RingEmptyIfIdle(s: State)
    requires Inv(s) && s.ringCount == 0 && forall i :: 0 <= i < |s.submitters| ==> s.submitters[i].Idle?
    ensures s.head == |s.ring|
  {
    forall p | 0 <= p < |s.ring| ensures s.ring[p].stage.Tallied? { assert CellOk(s, p); }
    NumberPrefix(s.ring, IsTallied, |s.ring|);
    NumberAtMost(s.ring, IsTallied);
  }

  /** Shut down, with no submitter in flight. */
  ghost predicate Closed(s: State)
  {
    s.shutdown && forall i :: 0 <= i < |s.submitters| ==> s.submitters[i].Idle?
  }

  lemma ClosedStep(s: State, s': State)
    requires Closed(s) && Next(s, s')
    ensures Closed(s')
  {
    var a :| Enabled(s, a) && s' == Do(s, a);
    if a.Go? { GoFrame(s, a.w, a.pick); }
  }

  /** After shutdown no submission begins. */
  lemma ClosedFrom(r: seq<State>, k: nat, m: nat)
    requires IsRun(Init, Next, r) && k <= m < |r| && Closed(r[k])
    ensures Closed(r[m])
  {
    forall s, s' | Closed(s) && Next(s, s') ensures Closed(s') { ClosedStep(s, s'); }
    RunKeepsFrom(Init, Next, Closed, r, k);
  }

  /** If a worker takes the shutdown exit while no submitter is in flight, then from there on nothing is queued,
      every task ever accepted is over or running on its worker, and over once every worker has left. */
  lemma ExitLeavesNothing(r: seq<State>, k: nat, m: nat, w: nat, t: nat)
    requires IsRun(Init, Next, r) && Leaves(r, k, w) && k <= m < |r| && t < |r[m].tasks|
    requires forall i :: 0 <= i < |r[k].submitters| ==> r[k].submitters[i].Idle?
    ensures Drained(r[m])
    ensures Over(r[m].tasks[t].place) || exists v :: 0 <= v < |r[m].workers| && r[m].workers[v] == Running(t)
    ensures (forall v :: 0 <= v < |r[m].workers| ==> r[m].workers[v].Exited?) ==> Over(r[m].tasks[t].place)
  {
    LeavingState(r, k, w);
    RingEmptyIfIdle(r[k]);
    SettledFrom(r, k, m);
    ClosedFrom(r, k, m);
    LateAt(r, m);
    SettledTask(r[m], t);
  }

  // ---------------------------------------------------------------- the task nobody takes

  ghost predicate AllExited(s: State)
  {
    forall w :: 0 <= w < |s.workers| ==> s.workers[w].Exited?
  }

  lemma RingKeepsAct(s: State, i: nat, ok: bool, t: nat)
    requires Inv(s) && Enabled(s, Act(i, ok)) && t < |s.tasks| && s.tasks[t].place.InRing?
    ensures var s' := ActStep(s, i, ok);
            s'.workers == s.workers && t < |s'.tasks| && s'.tasks[t].place == s.tasks[t].place
  {
    assert SubmitterOk(s, i);
  }

  lemma RingKeepsCancel(s: State, u: nat, t: nat)
    requires Inv(s) && u < |s.tasks| && t < |s.tasks| && s.tasks[t].place.InRing?
    ensures var s' := CancelStep(s, u);
            s'.workers == s.workers && t < |s'.tasks| && s'.tasks[t].place == s.tasks[t].place
  {
    if IndexOf(s.lane, u) < |s.lane| { assert At(s, s.lane[IndexOf(s.lane, u)], InLane); }
  }

  /** Every worker has left and task t is in ring position p. */
  ghost predicate Abandoned(s: State, t: nat, p: nat)
  {
    AllExited(s) && At(s, t, InRing(p))
  }

  lemma RingKeepsStep(s: State, s': State, t: nat, p: nat)
    requires Inv(s) && Next(s, s') && Abandoned(s, t, p)
    ensures Abandoned(s', t, p)
  {
    var a :| Enabled(s, a) && s' == Do(s, a);
    match a
    case Act(i, ok) => RingKeepsAct(s, i, ok, t);
    case Cancel(u) => RingKeepsCancel(s, u, t);
    case _ =>
  }

  /** A task in the ring when the last worker has left stays there. */
  lemma LeftInRing(r: seq<State>, k: nat, m: nat, t: nat, p: nat)
    requires IsRun(Init, Next, r) && k <= m < |r| && Abandoned(r[k], t, p)
    ensures Abandoned(r[m], t, p)
  {
    InvAt(r, k);
    var stuck := (s: State) => Inv(s) && Abandoned(s, t, p);
    forall s, s' | stuck(s) && Next(s, s') ensures stuck(s') {
      InvStep(s, s');
      RingKeepsStep(s, s', t, p);
    }
    RunKeepsFrom(Init, Next, stuck, r, k);
  }

  lemma Took(r: seq<State>, a: Step, s': State) returns (r': seq<State>)
    requires IsRun(Init, Next, r) && Enabled(r[|r| - 1], a) && s' == Do(r[|r| - 1], a)
    ensures IsRun(Init, Next, r') && r' == r + [s']
  {
    assert Next(r[|r| - 1], s');
    Extended(Init, Next, r, s');
    r' := r + [s'];
  }

  function AtStart(n: nat): State
  {
    State(n, [], [], 0, [[]], [], 0, 0, false, Free, [Top], [Idle])
  }

  /** The submission has passed the shutdown check and stops there; the only worker leaves. */
  function WorkerGone(n: nat): State
  {
    AtStart(n).(tasks := [NewTask(Submitting(0), false)], shutdown := true,
      workers := [Exited], submitters := [Created(0)])
  }

  lemma OnlyWorkerLeaves(n: nat) returns (r: seq<State>)
    requires n > 0
    ensures IsRun(Init, Next, r) && r[|r| - 1] == WorkerGone(n)
  {
    var s1 := AtStart(n).(tasks := [NewTask(Submitting(0), false)], submitters := [Created(0)]);
    r := Took([AtStart(n)], Submit(0), s1);
    var s2 := s1.(shutdown := true);
    r := Took(r, Shutdown, s2);
    r := Took(r, Go(0, 0), s2.(workers := [Test], lock := Held(0)));
    r := Took(r, Go(0, 0), s2.(workers := [Test2], lock := Held(0)));
    r := Took(r, Go(0, 0), WorkerGone(n));
  }

  /** It then claims a ring position. */
  function TaskClaimed(n: nat): State
  {
    var x := Added(NewTask(Submitting(0), false)).(place := InRing(0), viaRing := true);
    WorkerGone(n).(tasks := [x], queueLen := 1, submitters := [Claimed(0, 0)], ring := [Cell(0, Stored, 0)])
  }

  lemma ClaimedAfterwards(n: nat) returns (r: seq<State>)
    requires n > 0
    ensures IsRun(Init, Next, r) && r[|r| - 1] == TaskClaimed(n)
  {
    r := OnlyWorkerLeaves(n);
    var s1 := WorkerGone(n);
    var s2 := s1.(tasks := [Added(s1.tasks[0])], submitters := [Counted(0)], queueLen := 1);
    r := Took(r, Act(0, true), s2);
    r := Took(r, Act(0, true), TaskClaimed(n));
  }

  /** ... and, for every ring size, publishes the task, which `enqueue_task` reports as accepted, in a ring
      nobody reads any more. */
  lemma AcceptedAndNeverRun(n: nat) returns (r: seq<State>)
    requires n > 0
    ensures IsRun(Init, Next, r)
    ensures var s := r[|r| - 1];
            && s.ringSize == n && Abandoned(s, 0, 0) && s.submitters == [Idle] && |s.tasks| == 1
            && s.queueLen == 1 && s.tasks[0].runs == 0
  {
    r := ClaimedAfterwards(n);
    var s3 := TaskClaimed(n);
    var x := s3.tasks[0].(indexed := true);
    var s4 := s3.(tasks := [x], submitters := [Indexed(0, 0)], ring := [Cell(0, Inserted, 0)]);
    r := Took(r, Act(0, true), s4);
    var s5 := s4.(submitters := [Tallying(0, 0)], ring := [Cell(0, Published, 0)]);
    r := Took(r, Act(0, true), s5);
    r := Took(r, Act(0, true), s5.(submitters := [Idle], ring := [Cell(0, Tallied, 0)], ringCount := 1));
  }
}
