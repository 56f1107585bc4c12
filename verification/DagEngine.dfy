/** The running DAG (`loom_dag_submit`'s release of the roots, `dag_release_node`, `dag_runner_fn`,
    `dag_wait_internal`) as a transition system.  Steps: each atomic access and each `done_mu` critical
    section of the submitting thread, of the runner of every node, and of one joiner.  Allocation,
    future initialisation and pool submission may fail at every release.  The pool is taken to run every
    wrapper it accepted, once. */
module DagEngine {
  import opened Collections
  import opened Runs
  import opened Codes
  import opened DagGraph

  /** Progress of one call of `dag_release_node(u)`. */
  datatype Rel =
    | NoRel
    | Enter(u: nat)
    | Owned(u: nat)                      // future initialised, future_owner set
    | Counted(u: nat)                    // in_flight incremented
    | Accepted(u: nat)                   // the pool took the wrapper; released_total not yet bumped
    | Refused(u: nat, rc: Rc)            // the pool refused it; future not yet completed
    | Completed(u: nat, rc: Rc)          // future completed with the error; failure not yet recorded
    | PreFailed(u: nat, rc: Rc)          // failed before the future existed; not yet recorded

  datatype Submitter =
    | Before
    | EarlyFail(rc: Rc)                  // submitted is set; failed is not yet
    | Waking(rc: Rc)                     // about to lock done_mu and signal if drained
    | Roots(i: nat, rel: Rel)            // the root loop at id i
    | Returned(rc: Rc)

  /** The wrapper of one node.  `i` counts the successors already decremented. */
  datatype Runner =
    | Absent
    | Queued
    | Running
    | FnReturned                         // status written; future not yet completed
    | Loop(i: nat)                       // about to test `failed` for successor i
    | Passed(i: nat)                     // it was false: about to decrement successor i
    | Releasing(i: nat, rel: Rel)
    | Epilogue(i: nat)
    | Finished(i: nat)

  datatype Joiner = Outside | Joining | Asleep(signalled: bool) | Joined(rc: Rc)

  datatype Owner = Nobody | BySubmit | ByRunner(v: nat)

  /** `owner`, `mid`, `decs`, `runs` and `failures` are history: who began each node's release and how far
      it is, how many successors each runner decremented, how often each node's function was started,
      the failures in the order they were recorded, and whether the root loop was entered. */
  datatype State = State(
    g: Graph,
    submitted: bool,
    failed: bool,
    failError: Rc,
    inFlight: int,
    released: nat,
    addedCount: nat,
    pending: seq<int>,
    futureOwner: seq<bool>,
    futureReady: seq<bool>,
    sub: Submitter,
    run: seq<Runner>,
    joiner: Joiner,
    owner: seq<Owner>,
    mid: seq<Rel>,
    decs: seq<nat>,
    runs: seq<nat>,
    failures: seq<Rc>,
    started: bool)

  /** `dag_drained` */
  predicate Drained(s: State)
  {
    s.inFlight == 0 && (s.failed || s.released == s.addedCount)
  }

  predicate Sized(s: State)
  {
    var n := |s.g|;
    && |s.pending| == n && |s.futureOwner| == n && |s.futureReady| == n && |s.run| == n
    && |s.owner| == n && |s.mid| == n && |s.decs| == n && |s.runs| == n
  }

  predicate IsRoot(g: Graph, u: nat)
  {
    u < |g| && g[u].added && g[u].inDegree == 0
  }

  // ---------------------------------------------------------------- steps

  datatype Step =
    | StartEmpty
    | StartFail(rc: Rc)             // the cycle was found, or the pass could not allocate
    | StartRoots
    | Submit(ok: bool, rc: Rc)      // next action of the submitting thread; ok/rc is the outcome of a call
    | Go(v: nat, ok: bool, rc: Rc)  // next action of the runner of v
    | Join
    | JoinWakes                     // signalled or spurious
    | JoinTimesOut

  /** What every action of a submitter or runner does to the failure record and to the joiner. */
  predicate Grows(s: State, s': State)
  {
    s.failures <= s'.failures && (s'.joiner == s.joiner || (s.joiner.Asleep? && s'.joiner == Asleep(true)))
  }

  /** Signal the joiner, of whom there is one, if the DAG is drained. */
  function Signal(s: State): (s': State)
    ensures s'.(joiner := s.joiner) == s && Grows(s, s')
  {
    if Drained(s) && s.joiner.Asleep? then s.(joiner := Asleep(true)) else s
  }

  /** `dag_record_release_failure` */
  function Record(s: State, rc: Rc): (s': State)
    ensures s'.(joiner := s.joiner, failed := s.failed, failError := s.failError,
      released := s.released, failures := s.failures) == s
    ensures Grows(s, s')
  {
    var s1 := if s.failed then s else s.(failError := rc, failed := true);
    Signal(s1.(released := s.released + 1, failures := s.failures + [rc]))
  }

  /** One action inside `dag_release_node(u)`; the second component is what remains of the call. */
  function Release(s: State, rel: Rel, ok: bool, rc: Rc): (r: (State, Rel))
    requires Sized(s) && !rel.NoRel? && rel.u < |s.g|
    ensures Sized(r.0) && r.0.g == s.g && Grows(s, r.0)
  {
    var u := rel.u;
    match rel
    case Enter(_) =>
      if ok then (s.(futureOwner := s.futureOwner[u := true], futureReady := s.futureReady[u := false]), Owned(u))
      else (s, PreFailed(u, rc))
    case Owned(_) => (s.(inFlight := s.inFlight + 1), Counted(u))
    case Counted(_) =>
      if ok then (s.(run := s.run[u := Queued]), Accepted(u)) else (s, Refused(u, rc))
    case Accepted(_) => (Signal(s.(released := s.released + 1)), NoRel)
    case Refused(_, e) => (s.(futureReady := s.futureReady[u := true]), Completed(u, e))
    case Completed(_, e) => (Record(s.(inFlight := s.inFlight - 1), e), NoRel)
    case PreFailed(_, e) => (Record(s, e), NoRel)
  }

  /** Release one step further and keep the history of u's release in step. */
  function Released(s: State, rel: Rel, ok: bool, rc: Rc): (r: (State, Rel))
    requires Sized(s) && !rel.NoRel? && rel.u < |s.g|
    ensures Sized(r.0) && r.0.g == s.g && Grows(s, r.0)
  {
    var (s1, rel') := Release(s, rel, ok, rc);
    (s1.(mid := s1.mid[rel.u := rel']), rel')
  }

  /** A call of `dag_release_node(u)` begins. */
  function Begin(s: State, u: nat, who: Owner): (s': State)
    requires Sized(s) && u < |s.g|
    ensures Sized(s') && s'.g == s.g && Grows(s, s')
  {
    s.(owner := s.owner[u := who], mid := s.mid[u := Enter(u)])
  }

  function SubmitStep(s: State, ok: bool, rc: Rc): (s': State)
    requires Sized(s) && (s.sub.Roots? && !s.sub.rel.NoRel? ==> s.sub.rel.u < |s.g|)
    ensures Sized(s') && s'.g == s.g && Grows(s, s')
  {
    match s.sub
    case EarlyFail(e) => s.(failError := e, failed := true, failures := s.failures + [e], sub := Waking(e))
    case Waking(e) => Signal(s).(sub := Returned(e))
    case Roots(i, rel) => if rel.NoRel? then NextRoot(s, i) else ReleaseRoot(s, i, rel, ok, rc)
    case _ => s
  }

  function NextRoot(s: State, i: nat): (s': State)
    requires Sized(s)
    ensures Sized(s') && s'.g == s.g && Grows(s, s')
  {
    if i >= |s.g| then s.(sub := Returned(OK))
    else if IsRoot(s.g, i) then Begin(s, i, BySubmit).(sub := Roots(i, Enter(i)))
    else s.(sub := Roots(i + 1, NoRel))
  }

  /** The first failed release stops the root loop. */
  function ReleaseRoot(s: State, i: nat, rel: Rel, ok: bool, rc: Rc): (s': State)
    requires Sized(s) && !rel.NoRel? && rel.u < |s.g|
    ensures Sized(s') && s'.g == s.g && Grows(s, s')
  {
    var (s1, rel') := Released(s, rel, ok, rc);
    s1.(sub := if !rel'.NoRel? then Roots(i, rel')
               else if rel.Completed? || rel.PreFailed? then Returned(rel.rc)
               else Roots(i + 1, NoRel))
  }

  function Move(s: State, v: nat, r: Runner): (s': State)
    requires Sized(s) && v < |s.g|
    ensures Sized(s') && s'.g == s.g && Grows(s, s')
  {
    s.(run := s.run[v := r])
  }

  /** The runner that takes a successor's countdown from one to zero enters its release. */
  function FetchSub(s: State, v: nat, i: nat): (s': State)
    requires Sized(s) && v < |s.g| && i < |s.g[v].succs| && s.g[v].succs[i] < |s.g|
    ensures Sized(s') && s'.g == s.g && Grows(s, s')
  {
    var u := s.g[v].succs[i];
    var s1 := s.(pending := s.pending[u := s.pending[u] - 1], decs := s.decs[v := i + 1]);
    if s.pending[u] == 1 then Move(Begin(s1, u, ByRunner(v)), v, Releasing(i, Enter(u)))
    else Move(s1, v, Loop(i + 1))
  }

  function ReleaseSucc(s: State, v: nat, i: nat, rel: Rel, ok: bool, rc: Rc): (s': State)
    requires Sized(s) && v < |s.g| && !rel.NoRel? && rel.u < |s.g|
    ensures Sized(s') && s'.g == s.g && Grows(s, s')
  {
    var (s1, rel') := Released(s, rel, ok, rc);
    s1.(run := s1.run[v := if rel'.NoRel? then Loop(i + 1) else Releasing(i, rel')])
  }

  /** The next action inside `dag_runner_fn` for node v. */
  function RunStep(s: State, v: nat, ok: bool, rc: Rc): (s': State)
    requires Sized(s) && v < |s.g|
    requires s.run[v].Passed? ==> s.run[v].i < |s.g[v].succs| && s.g[v].succs[s.run[v].i] < |s.g|
    requires s.run[v].Releasing? ==> !s.run[v].rel.NoRel? && s.run[v].rel.u < |s.g|
    ensures Sized(s') && s'.g == s.g && Grows(s, s')
  {
    match s.run[v]
    case Queued => Move(s, v, Running).(runs := s.runs[v := s.runs[v] + 1])
    case Running => Move(s, v, FnReturned)
    case FnReturned => Move(s, v, Loop(0)).(futureReady := s.futureReady[v := true])
    case Loop(i) =>
      if i >= |s.g[v].succs| || s.failed then Move(s, v, Epilogue(i)) else Move(s, v, Passed(i))
    case Passed(i) => FetchSub(s, v, i)
    case Releasing(i, rel) => ReleaseSucc(s, v, i, rel, ok, rc)
    case Epilogue(i) => Signal(Move(s, v, Finished(i)).(inFlight := s.inFlight - 1))
    case _ => s
  }

  ghost predicate Enabled(s: State, a: Step)
  {
    && Sized(s)
    && match a
       case StartEmpty => s.sub.Before? && Ids(s.g) == {}
       case StartFail(rc) => s.sub.Before? && Ids(s.g) != {} && (rc == ALLOC || (rc == INVALID && HasCycle(s.g)))
       case StartRoots => s.sub.Before? && Ids(s.g) != {} && !HasCycle(s.g)
       case Submit(ok, rc) =>
         && !s.sub.Before? && !s.sub.Returned? && (!ok ==> rc != OK)
         && (s.sub.Roots? && !s.sub.rel.NoRel? ==> s.sub.rel.u < |s.g|)
       case Go(v, ok, rc) =>
         && v < |s.g| && !s.run[v].Absent? && !s.run[v].Finished? && (!ok ==> rc != OK)
         && (s.run[v].Passed? ==> s.run[v].i < |s.g[v].succs| && s.g[v].succs[s.run[v].i] < |s.g|)
         && (s.run[v].Releasing? ==> !s.run[v].rel.NoRel? && s.run[v].rel.u < |s.g|)
       case Join => s.joiner.Outside? || s.joiner.Joining?
       case JoinWakes => s.joiner.Asleep?
       case JoinTimesOut => s.joiner.Asleep?
  }

  function JoinStep(s: State): Joiner
  {
    if s.joiner.Outside? then (if s.submitted then Joining else Joined(INVALID))
    else if Drained(s) then Joined(if s.failed then s.failError else OK)
    else Asleep(false)
  }

  function Do(s: State, a: Step): State
    requires Enabled(s, a)
  {
    match a
    case StartEmpty => s.(addedCount := 0, submitted := true, sub := Waking(OK))
    case StartFail(rc) => s.(submitted := true, sub := EarlyFail(rc))
    case StartRoots =>
      s.(submitted := true, started := true, sub := Roots(0, NoRel),
          pending := seq(|s.g|, u requires 0 <= u < |s.g| => s.g[u].inDegree))
    case Submit(ok, rc) => SubmitStep(s, ok, rc)
    case Go(v, ok, rc) => RunStep(s, v, ok, rc)
    case Join => s.(joiner := JoinStep(s))
    case JoinWakes => s.(joiner := Joining)
    case JoinTimesOut => s.(joiner := Joined(TIMEOUT))
  }

  /** A built graph, nothing submitted. */
  ghost predicate Init(s: State)
  {
    && Sized(s) && WellFormed(s.g) && s.addedCount == |Ids(s.g)|
    && !s.submitted && !s.failed && s.inFlight == 0 && s.released == 0
    && s.sub.Before? && s.joiner.Outside? && s.failures == [] && !s.started
    && (forall u :: 0 <= u < |s.g| ==>
          && s.run[u].Absent? && s.owner[u].Nobody? && s.mid[u].NoRel?
          && !s.futureOwner[u] && s.decs[u] == 0 && s.runs[u] == 0)
  }

  ghost predicate Next(s: State, s': State)
  {
    exists a :: Enabled(s, a) && s' == Do(s, a)
  }

  // ---------------------------------------------------------------- invariant

  predicate Active(r: Runner)
  {
    !r.Absent? && !r.Finished?
  }

  /** What in_flight counts: wrappers queued or running, and releases between their increment and the
      moment the wrapper exists (or the increment is undone). */
  predicate InCount(r: Runner, m: Rel)
  {
    Active(r) || m.Counted? || m.Refused? || m.Completed?
  }

  function Flying(run: seq<Runner>, mid: seq<Rel>): set<nat>
    requires |run| == |mid|
  {
    set u | 0 <= u < |run| && InCount(run[u], mid[u])
  }

  /** What released_total counts: releases that were begun and have been booked. */
  predicate Booked(o: Owner, m: Rel)
  {
    !o.Nobody? && m.NoRel?
  }

  function Attempts(owner: seq<Owner>, mid: seq<Rel>): set<nat>
    requires |owner| == |mid|
  {
    set u | 0 <= u < |owner| && Booked(owner[u], mid[u])
  }

  function Drop(xs: seq<nat>, k: nat): seq<nat>
  {
    if k <= |xs| then xs[k..] else []
  }

  /** The predecessors of u that have not decremented u's countdown yet. */
  function Waiting(g: Graph, decs: seq<nat>, u: nat): set<nat>
    requires |decs| == |g|
  {
    set v | 0 <= v < |g| && u in Drop(g[v].succs, decs[v])
  }

  /** The thread that began u's release is the one executing it now. */
  predicate Holder(s: State, u: nat)
    requires Sized(s) && u < |s.g|
  {
    match s.owner[u]
    case Nobody => false
    case BySubmit => s.sub.Roots? && s.sub.rel == s.mid[u]
    case ByRunner(v) => v < |s.g| && s.run[v].Releasing? && s.run[v].rel == s.mid[u]
  }

  ghost predicate TargetOk(s: State, u: nat)
    requires Sized(s) && u < |s.g|
  {
    TargetLocal(s, u) && (!s.mid[u].NoRel? ==> Holder(s, u))
  }

  ghost predicate TargetLocal(s: State, u: nat)
    requires Sized(s) && u < |s.g|
  {
    var m, r := s.mid[u], s.run[u];
    && (s.owner[u].Nobody? ==> m.NoRel? && r.Absent? && !s.futureOwner[u])
    && (!s.owner[u].Nobody? ==> s.g[u].added)
    && (s.owner[u].BySubmit? ==> IsRoot(s.g, u))
    && (s.owner[u].ByRunner? ==> s.owner[u].v < |s.g| && u in s.g[s.owner[u].v].succs)
    && (!m.NoRel? ==> m.u == u)
    && (m.NoRel? && !s.owner[u].Nobody? && r.Absent? ==> s.failed)
    && (m.Accepted? ==> !r.Absent?)
    && (!m.NoRel? && !m.Accepted? ==> r.Absent?)
    && (m.Enter? || m.PreFailed? ==> !s.futureOwner[u])
    && (!r.Absent? || m.Owned? || m.Counted? || m.Refused? || m.Completed? ==> s.futureOwner[u])
    && (s.futureOwner[u] ==>
          s.futureReady[u] || r.Queued? || r.Running? || r.FnReturned? || m.Owned? || m.Counted? || m.Refused?)
    && s.runs[u] == (if r.Absent? || r.Queued? then 0 else 1)
  }

  ghost predicate RunnerOk(s: State, v: nat)
    requires Sized(s) && v < |s.g|
  {
    var n, d := |s.g[v].succs|, s.decs[v];
    match s.run[v]
    case Loop(i) => i <= n && d == i
    case Passed(i) => i < n && d == i
    case Releasing(i, rel) =>
      && i < n && d == i + 1 && !rel.NoRel? && rel.u == s.g[v].succs[i] && rel.u < |s.g|
      && s.owner[rel.u] == ByRunner(v) && s.mid[rel.u] == rel
    case Epilogue(i) => i <= n && d == i && (!s.failed ==> i == n)
    case Finished(i) => i <= n && d == i && (!s.failed ==> i == n)
    case _ => d == 0
  }

  ghost predicate RootOwned(s: State, u: nat)
    requires Sized(s) && u < |s.g|
  {
    match s.sub
    case Roots(i, rel) => !s.owner[u].Nobody? <==> u < i || (u == i && !rel.NoRel?)
    case Returned(_) => s.started && !s.failed ==> !s.owner[u].Nobody?
    case _ => s.owner[u].Nobody?
  }

  ghost predicate SubOk(s: State)
    requires Sized(s)
  {
    && (s.submitted <==> !s.sub.Before?)
    && (s.sub.Before? || s.sub.EarlyFail? || s.sub.Waking? ==> !s.started)
    && (s.sub.Before? || s.sub.EarlyFail? ==> !s.failed)
    && (s.sub.Roots? ==> s.started)
    && (s.sub.Roots? && !s.sub.rel.NoRel? ==>
          && s.sub.i < |s.g| && s.sub.rel.u == s.sub.i
          && s.owner[s.sub.i] == BySubmit && s.mid[s.sub.i] == s.sub.rel)
    && (!s.started ==> forall u :: 0 <= u < |s.g| ==> s.owner[u].Nobody?)
    && (s.started ==> !HasCycle(s.g))
  }

  /** The live countdown, once seeded, and its meaning for nodes with predecessors. */
  ghost predicate WaitOk(s: State, u: nat)
    requires Sized(s) && u < |s.g|
  {
    && s.pending[u] == |Waiting(s.g, s.decs, u)|
    && (Preds(s.g, u) != {} ==> (!s.owner[u].Nobody? <==> Waiting(s.g, s.decs, u) == {}))
  }

  ghost predicate Targets(s: State)
    requires Sized(s)
  {
    forall u {:trigger TargetOk(s, u)} :: 0 <= u < |s.g| ==> TargetOk(s, u)
  }

  ghost predicate Runners(s: State)
    requires Sized(s)
  {
    forall v {:trigger RunnerOk(s, v)} :: 0 <= v < |s.g| ==> RunnerOk(s, v)
  }

  ghost predicate RootsOk(s: State)
    requires Sized(s)
  {
    forall u {:trigger RootOwned(s, u)} :: 0 <= u < |s.g| && IsRoot(s.g, u) ==> RootOwned(s, u)
  }

  ghost predicate Waits(s: State)
    requires Sized(s)
  {
    s.started ==> forall u {:trigger WaitOk(s, u)} :: 0 <= u < |s.g| ==> WaitOk(s, u)
  }

  ghost predicate CountOk(s: State)
    requires Sized(s)
  {
    && s.inFlight == |Flying(s.run, s.mid)|
    && s.released == |Attempts(s.owner, s.mid)|
    && s.addedCount == |Ids(s.g)|
  }

  ghost predicate FailOk(s: State)
  {
    (s.failed <==> s.failures != []) && (s.failed ==> s.failError == s.failures[0])
  }

  /** A sleeping joiner that was not signalled sleeps with reason, or its signal is on the way. */
  ghost predicate JoinOk(s: State)
  {
    && (s.joiner.Asleep? || s.joiner.Joining? ==> s.submitted)
    && (s.joiner == Asleep(false) && Drained(s) ==> s.sub.Waking?)
  }

  /** Everything that does not look at the joiner. */
  ghost predicate Core(s: State)
  {
    && Sized(s) && WellFormed(s.g)
    && Targets(s) && Runners(s) && SubOk(s) && RootsOk(s) && Waits(s) && CountOk(s) && FailOk(s)
  }

  ghost predicate Inv(s: State)
  {
    Core(s) && JoinOk(s)
  }

  // ---------------------------------------------------------------- proof: frames

  lemma CardWithout(a: set<nat>, u: nat)
    ensures |a| == |a - {u}| + if u in a then 1 else 0
  {
    if u !in a { assert a - {u} == a; }
  }

  lemma FlyingChange(run: seq<Runner>, mid: seq<Rel>, run': seq<Runner>, mid': seq<Rel>, u: nat)
    requires |run| == |mid| == |run'| == |mid'| && u < |run|
    requires forall w :: 0 <= w < |run| && w != u ==> InCount(run'[w], mid'[w]) == InCount(run[w], mid[w])
    ensures |Flying(run', mid')| - |Flying(run, mid)| ==
              (if InCount(run'[u], mid'[u]) then 1 else 0) - (if InCount(run[u], mid[u]) then 1 else 0)
  {
    var a, a' := Flying(run, mid), Flying(run', mid');
    assert a' - {u} == a - {u};
    CardWithout(a, u);
    CardWithout(a', u);
  }

  lemma AttemptsChange(owner: seq<Owner>, mid: seq<Rel>, owner': seq<Owner>, mid': seq<Rel>, u: nat)
    requires |owner| == |mid| == |owner'| == |mid'| && u < |owner|
    requires forall w :: 0 <= w < |owner| && w != u ==> Booked(owner'[w], mid'[w]) == Booked(owner[w], mid[w])
    ensures |Attempts(owner', mid')| - |Attempts(owner, mid)| ==
              (if Booked(owner'[u], mid'[u]) then 1 else 0) - (if Booked(owner[u], mid[u]) then 1 else 0)
  {
    var a, a' := Attempts(owner, mid), Attempts(owner', mid');
    assert a' - {u} == a - {u};
    CardWithout(a, u);
    CardWithout(a', u);
  }

  lemma TargetFrame(s: State, s': State, w: nat)
    requires Sized(s) && Sized(s') && s'.g == s.g && w < |s.g| && TargetOk(s, w)
    requires s'.owner[w] == s.owner[w] && s'.mid[w] == s.mid[w] && s'.run[w] == s.run[w]
    requires s'.futureOwner[w] == s.futureOwner[w] && s'.futureReady[w] == s.futureReady[w] && s'.runs[w] == s.runs[w]
    requires s.failed ==> s'.failed
    requires !s.mid[w].NoRel? ==> Holder(s', w)
    ensures TargetOk(s', w)
  {
  }

  lemma RunnerFrame(s: State, s': State, w: nat)
    requires Sized(s) && Sized(s') && s'.g == s.g && w < |s.g| && RunnerOk(s, w)
    requires s'.run[w] == s.run[w] && s'.decs[w] == s.decs[w]
    requires s.failed ==> s'.failed
    requires s.run[w].Releasing? ==>
               s'.owner[s.run[w].rel.u] == s.owner[s.run[w].rel.u] && s'.mid[s.run[w].rel.u] == s.mid[s.run[w].rel.u]
    ensures RunnerOk(s', w)
  {
  }

  lemma WaitsFrame(s: State, s': State)
    requires Sized(s) && Sized(s') && s'.g == s.g && Waits(s) && s'.started == s.started
    requires s'.pending == s.pending && s'.decs == s.decs
    requires s'.owner == s.owner || forall u :: 0 <= u < |s.g| && Preds(s.g, u) != {} ==> s'.owner[u] == s.owner[u]
    ensures Waits(s')
  {
    if s.started {
      forall u | 0 <= u < |s.g| ensures WaitOk(s', u) {
        assert WaitOk(s, u);
      }
    }
  }

  lemma RootsFrame(s: State, s': State)
    requires Sized(s) && Sized(s') && s'.g == s.g && RootsOk(s) && s'.sub == s.sub && s'.started == s.started
    requires s.failed ==> s'.failed
    requires forall u :: 0 <= u < |s.g| && IsRoot(s.g, u) ==> s'.owner[u] == s.owner[u]
    ensures RootsOk(s')
  {
    forall u | 0 <= u < |s.g| && IsRoot(s.g, u) ensures RootOwned(s', u) {
      assert RootOwned(s, u);
    }
  }

  lemma JoinerOnly(s: State, j: Joiner)
    requires Core(s)
    ensures Core(s.(joiner := j))
  {
    var s' := s.(joiner := j);
    forall w | 0 <= w < |s.g| ensures TargetOk(s', w) {
      assert TargetOk(s, w);
      TargetFrame(s, s', w);
    }
    forall w | 0 <= w < |s.g| ensures RunnerOk(s', w) {
      assert RunnerOk(s, w);
      RunnerFrame(s, s', w);
    }
    WaitsFrame(s, s');
    RootsFrame(s, s');
  }

  /** The signal closes the gap that a change of the drain predicate opened. */
  lemma SignalOk(s: State)
    requires Core(s) && (s.joiner.Asleep? || s.joiner.Joining? ==> s.submitted)
    ensures Inv(Signal(s))
  {
    JoinerOnly(s, Signal(s).joiner);
  }

  // ---------------------------------------------------------------- proof: the runner's own moves

  /** Runner moves that touch only its own program counter, future, run count, and in_flight. */
  lemma StepOwn(s: State, v: nat, s': State)
    requires Core(s) && v < |s.g| && Sized(s') && s'.g == s.g
    requires s' == Move(s, v, s'.run[v]).(runs := s'.runs, futureReady := s'.futureReady, inFlight := s'.inFlight)
    requires forall w :: 0 <= w < |s.g| && w != v ==> s'.runs[w] == s.runs[w] && s'.futureReady[w] == s.futureReady[w]
    requires Active(s.run[v]) && !s'.run[v].Absent? && !s.run[v].Releasing? && !s'.run[v].Releasing?
    requires s'.inFlight == if Active(s'.run[v]) then s.inFlight else s.inFlight - 1
    requires TargetOk(s', v) && RunnerOk(s', v)
    ensures Core(s')
  {
    forall w | 0 <= w < |s.g| ensures TargetOk(s', w) {
      if w != v {
        assert TargetOk(s, w);
        TargetFrame(s, s', w);
      }
    }
    forall w | 0 <= w < |s.g| ensures RunnerOk(s', w) {
      if w != v {
        assert RunnerOk(s, w);
        RunnerFrame(s, s', w);
      }
    }
    WaitsFrame(s, s');
    RootsFrame(s, s');
    FlyingChange(s.run, s.mid, s'.run, s'.mid, v);
  }

  lemma SimpleLocal(s: State, v: nat, ok: bool, rc: Rc)
    requires Enabled(s, Go(v, ok, rc)) && TargetOk(s, v) && RunnerOk(s, v)
    requires s.run[v].Queued? || s.run[v].Running? || s.run[v].FnReturned? || s.run[v].Loop?
    ensures TargetOk(RunStep(s, v, ok, rc), v) && RunnerOk(RunStep(s, v, ok, rc), v)
  {
  }

  lemma StepSimple(s: State, v: nat, ok: bool, rc: Rc)
    requires Inv(s) && Enabled(s, Go(v, ok, rc))
    requires s.run[v].Queued? || s.run[v].Running? || s.run[v].FnReturned? || s.run[v].Loop?
    ensures Inv(RunStep(s, v, ok, rc))
  {
    assert TargetOk(s, v) && RunnerOk(s, v);
    SimpleLocal(s, v, ok, rc);
    StepOwn(s, v, RunStep(s, v, ok, rc));
  }

  lemma StepEpilogue(s: State, v: nat, ok: bool, rc: Rc)
    requires Inv(s) && Enabled(s, Go(v, ok, rc)) && s.run[v].Epilogue?
    ensures Inv(RunStep(s, v, ok, rc))
  {
    assert TargetOk(s, v) && RunnerOk(s, v);
    var s1 := Move(s, v, Finished(s.run[v].i)).(inFlight := s.inFlight - 1);
    StepOwn(s, v, s1);
    SignalOk(s1);
  }

  // ---------------------------------------------------------------- proof: the countdown

  /** The decrement by v of its i-th successor u takes exactly v off u's waiting set. */
  lemma WaitingDrops(g: Graph, decs: seq<nat>, v: nat, i: nat, w: nat)
    requires |decs| == |g| && v < |g| && i < |g[v].succs| && Distinct(g[v].succs) && decs[v] == i
    ensures var u := g[v].succs[i];
            var after := Waiting(g, decs[v := i + 1], w);
            if w == u then v in Waiting(g, decs, w) && after == Waiting(g, decs, w) - {v}
            else after == Waiting(g, decs, w)
  {
    var xs := g[v].succs;
    assert xs[i..] == [xs[i]] + xs[i + 1..];
    assert xs[i] !in xs[i + 1..];
    var decs' := decs[v := i + 1];
    forall x ensures x in Waiting(g, decs', w) <==> x in Waiting(g, decs, w) && !(x == v && w == xs[i]) {
      if 0 <= x < |g| && x != v {
        assert Drop(g[x].succs, decs'[x]) == Drop(g[x].succs, decs[x]);
      }
    }
  }

  lemma RemoveOne(a: set<nat>, v: nat)
    requires v in a
    ensures |a - {v}| == |a| - 1
    ensures |a| == 1 <==> a - {v} == {}
  {
  }

  ghost predicate AtFetchSub(s: State, v: nat, i: nat, u: nat)
  {
    && Sized(s) && v < |s.g| && u < |s.g| && u != v
    && s.run[v] == Passed(i) && s.decs[v] == i && i < |s.g[v].succs| && s.g[v].succs[i] == u
  }

  lemma FetchSubWait(s: State, s': State, v: nat, i: nat, u: nat, w: nat)
    requires AtFetchSub(s, v, i, u) && Distinct(s.g[v].succs) && w < |s.g| && WaitOk(s, w)
    requires Sized(s') && s'.g == s.g && s'.decs == s.decs[v := i + 1] && s'.pending == s.pending[u := s.pending[u] - 1]
    requires s'.owner == if s.pending[u] == 1 then s.owner[u := ByRunner(v)] else s.owner
    ensures WaitOk(s', w)
    ensures w == u ==> s.owner[w].Nobody?
  {
    WaitingDrops(s.g, s.decs, v, i, w);
    if w == u {
      assert v in Preds(s.g, w);
      RemoveOne(Waiting(s.g, s.decs, w), v);
    }
  }

  lemma EdgeFacts(g: Graph, v: nat, i: nat)
    requires WellFormed(g) && v < |g| && i < |g[v].succs|
    ensures var u := g[v].succs[i]; u < |g| && u != v && g[u].added && !IsRoot(g, u) && Distinct(g[v].succs)
  {
    var u := g[v].succs[i];
    assert Edge(g, v, u);
    assert DegreeOk(g, u) && v in Preds(g, u);
  }

  lemma FetchSubWaits(s: State, s': State, v: nat, i: nat, u: nat)
    requires AtFetchSub(s, v, i, u) && Distinct(s.g[v].succs) && Waits(s) && s.started && s'.started
    requires Sized(s') && s'.g == s.g && s'.decs == s.decs[v := i + 1] && s'.pending == s.pending[u := s.pending[u] - 1]
    requires s'.owner == if s.pending[u] == 1 then s.owner[u := ByRunner(v)] else s.owner
    ensures Waits(s') && s.owner[u].Nobody?
  {
    assert WaitOk(s, u);
    FetchSubWait(s, s', v, i, u, u);
    forall w | 0 <= w < |s.g| ensures WaitOk(s', w) {
      assert WaitOk(s, w);
      FetchSubWait(s, s', v, i, u, w);
    }
  }

  /** Not the last predecessor: only the countdown moves. */
  lemma StepCountDown(s: State, v: nat, i: nat, u: nat)
    requires Core(s) && AtFetchSub(s, v, i, u) && s.pending[u] != 1
    ensures Core(FetchSub(s, v, i))
  {
    var s' := FetchSub(s, v, i);
    EdgeFacts(s.g, v, i);
    assert TargetOk(s, v) && RunnerOk(s, v);
    FetchSubWaits(s, s', v, i, u);
    forall w | 0 <= w < |s.g| ensures TargetOk(s', w) {
      assert TargetOk(s, w);
      if w != v { TargetFrame(s, s', w); }
    }
    forall w | 0 <= w < |s.g| ensures RunnerOk(s', w) {
      assert RunnerOk(s, w);
      if w != v { RunnerFrame(s, s', w); }
    }
    RootsFrame(s, s');
    FlyingChange(s.run, s.mid, s'.run, s'.mid, v);
  }

  lemma LastPredTarget(s: State, v: nat, i: nat, u: nat, w: nat)
    requires AtFetchSub(s, v, i, u) && s.pending[u] == 1 && s.owner[u].Nobody? && s.g[u].added
    requires w < |s.g| && TargetOk(s, w) && TargetOk(s, u)
    ensures TargetOk(FetchSub(s, v, i), w)
  {
    if w != v && w != u { TargetFrame(s, FetchSub(s, v, i), w); }
  }

  lemma LastPredRunner(s: State, v: nat, i: nat, u: nat, w: nat)
    requires AtFetchSub(s, v, i, u) && s.pending[u] == 1 && s.owner[u].Nobody?
    requires w < |s.g| && RunnerOk(s, w)
    ensures RunnerOk(FetchSub(s, v, i), w)
  {
    if w != v { RunnerFrame(s, FetchSub(s, v, i), w); }
  }

  /** The last predecessor begins the release, which nobody began before. */
  lemma StepLastPred(s: State, v: nat, i: nat, u: nat)
    requires Core(s) && AtFetchSub(s, v, i, u) && s.pending[u] == 1
    ensures Core(FetchSub(s, v, i))
  {
    var s' := FetchSub(s, v, i);
    EdgeFacts(s.g, v, i);
    assert TargetOk(s, v) && TargetOk(s, u);
    FetchSubWaits(s, s', v, i, u);
    forall w | 0 <= w < |s.g| ensures TargetOk(s', w) {
      assert TargetOk(s, w);
      LastPredTarget(s, v, i, u, w);
    }
    forall w | 0 <= w < |s.g| ensures RunnerOk(s', w) {
      assert RunnerOk(s, w);
      LastPredRunner(s, v, i, u, w);
    }
    RootsFrame(s, s');
    FlyingChange(s.run, s.mid, s'.run, s'.mid, v);
    AttemptsChange(s.owner, s.mid, s'.owner, s'.mid, u);
  }

  lemma StepFetchSub(s: State, v: nat, ok: bool, rc: Rc)
    requires Inv(s) && Enabled(s, Go(v, ok, rc)) && s.run[v].Passed?
    ensures Inv(RunStep(s, v, ok, rc))
  {
    var i := s.run[v].i;
    var u := s.g[v].succs[i];
    EdgeFacts(s.g, v, i);
    assert RunnerOk(s, v);
    if s.pending[u] == 1 { StepLastPred(s, v, i, u); } else { StepCountDown(s, v, i, u); }
  }

  // ---------------------------------------------------------------- proof: releases

  /** `s1` differs from `s` by one action of the release of u, which is now at `rel'`. */
  ghost predicate Advanced(s: State, s1: State, u: nat, rel': Rel)
  {
    && Sized(s) && Sized(s1) && u < |s.g|
    && s1 == s.(inFlight := s1.inFlight, released := s1.released, failed := s1.failed, failError := s1.failError,
                failures := s1.failures, futureOwner := s1.futureOwner, futureReady := s1.futureReady,
                run := s1.run, mid := s1.mid)
    && s1.mid == s.mid[u := rel'] && (!rel'.NoRel? ==> rel'.u == u)
    && (s1.run == s.run || (s.run[u].Absent? && s1.run == s.run[u := Queued]))
    && (forall w :: 0 <= w < |s.g| && w != u ==>
          s1.futureOwner[w] == s.futureOwner[w] && s1.futureReady[w] == s.futureReady[w])
    && (s.failed ==> s1.failed)
  }

  lemma ReleaseAdvances(s: State, rel: Rel, ok: bool, rc: Rc)
    requires Sized(s) && !rel.NoRel? && rel.u < |s.g| && (rel.Counted? ==> s.run[rel.u].Absent?)
    ensures Advanced(s, Released(s, rel, ok, rc).0.(joiner := s.joiner), rel.u, Released(s, rel, ok, rc).1)
  {
    if rel.Accepted? || rel.Completed? || rel.PreFailed? { LastActionAdvances(s, rel, ok, rc); }
    else { EarlyActionAdvances(s, rel, ok, rc); }
  }

  lemma EarlyActionAdvances(s: State, rel: Rel, ok: bool, rc: Rc)
    requires Sized(s) && (rel.Enter? || rel.Owned? || rel.Counted? || rel.Refused?) && rel.u < |s.g|
    requires rel.Counted? ==> s.run[rel.u].Absent?
    ensures Advanced(s, Released(s, rel, ok, rc).0.(joiner := s.joiner), rel.u, Released(s, rel, ok, rc).1)
  {
  }

  lemma LastActionAdvances(s: State, rel: Rel, ok: bool, rc: Rc)
    requires Sized(s) && (rel.Accepted? || rel.Completed? || rel.PreFailed?) && rel.u < |s.g|
    ensures Advanced(s, Released(s, rel, ok, rc).0.(joiner := s.joiner), rel.u, Released(s, rel, ok, rc).1)
  {
  }

  lemma ReleaseTarget(s: State, rel: Rel, ok: bool, rc: Rc)
    requires Sized(s) && !rel.NoRel? && rel.u < |s.g| && TargetLocal(s, rel.u) && s.mid[rel.u] == rel
    ensures TargetLocal(Released(s, rel, ok, rc).0.(joiner := s.joiner), rel.u)
  {
    if rel.Accepted? || rel.Completed? || rel.PreFailed? { LastActionTarget(s, rel, ok, rc); }
    else { EarlyActionTarget(s, rel, ok, rc); }
  }

  lemma EarlyActionTarget(s: State, rel: Rel, ok: bool, rc: Rc)
    requires Sized(s) && (rel.Enter? || rel.Owned? || rel.Counted? || rel.Refused?) && rel.u < |s.g|
    requires TargetLocal(s, rel.u) && s.mid[rel.u] == rel
    ensures TargetLocal(Released(s, rel, ok, rc).0.(joiner := s.joiner), rel.u)
  {
  }

  lemma LastActionTarget(s: State, rel: Rel, ok: bool, rc: Rc)
    requires Sized(s) && (rel.Accepted? || rel.Completed? || rel.PreFailed?) && rel.u < |s.g|
    requires TargetLocal(s, rel.u) && s.mid[rel.u] == rel
    ensures TargetLocal(Released(s, rel, ok, rc).0.(joiner := s.joiner), rel.u)
  {
  }

  /** Whenever an action of the release makes the DAG drained, it signals. */
  lemma ReleaseJoin(s: State, rel: Rel, ok: bool, rc: Rc)
    requires Sized(s) && !rel.NoRel? && rel.u < |s.g| && JoinOk(s) && !s.sub.Waking? && s.inFlight >= 0
    ensures JoinOk(Released(s, rel, ok, rc).0)
  {
  }

  lemma ReleaseFails(s: State, rel: Rel, ok: bool, rc: Rc)
    requires Sized(s) && !rel.NoRel? && rel.u < |s.g| && FailOk(s)
    ensures var s1 := Released(s, rel, ok, rc).0.(joiner := s.joiner);
            FailOk(s1) && (rel.Completed? || rel.PreFailed? ==> s1.failed)
  {
  }

  lemma CountsMove(s: State, s1: State, u: nat, rel': Rel)
    requires Advanced(s, s1, u, rel') && CountOk(s)
    requires s1.inFlight - s.inFlight ==
               (if InCount(s1.run[u], s1.mid[u]) then 1 else 0) - (if InCount(s.run[u], s.mid[u]) then 1 else 0)
    requires s1.released - s.released ==
               (if Booked(s1.owner[u], s1.mid[u]) then 1 else 0) - (if Booked(s.owner[u], s.mid[u]) then 1 else 0)
    ensures CountOk(s1)
  {
    FlyingChange(s.run, s.mid, s1.run, s1.mid, u);
    AttemptsChange(s.owner, s.mid, s1.owner, s1.mid, u);
  }

  /** The two counters move with what they count. */
  lemma ReleaseCounts(s: State, rel: Rel, ok: bool, rc: Rc)
    requires Sized(s) && !rel.NoRel? && rel.u < |s.g| && TargetLocal(s, rel.u) && s.mid[rel.u] == rel && CountOk(s)
    ensures CountOk(Released(s, rel, ok, rc).0.(joiner := s.joiner))
  {
    if rel.Accepted? || rel.Completed? || rel.PreFailed? { LastActionCounts(s, rel, ok, rc); }
    else { EarlyActionCounts(s, rel, ok, rc); }
  }

  lemma EarlyActionCounts(s: State, rel: Rel, ok: bool, rc: Rc)
    requires Sized(s) && (rel.Enter? || rel.Owned? || rel.Counted? || rel.Refused?) && rel.u < |s.g|
    requires TargetLocal(s, rel.u) && s.mid[rel.u] == rel && CountOk(s)
    ensures CountOk(Released(s, rel, ok, rc).0.(joiner := s.joiner))
  {
    EarlyActionAdvances(s, rel, ok, rc);
    CountsMove(s, Released(s, rel, ok, rc).0.(joiner := s.joiner), rel.u, Released(s, rel, ok, rc).1);
  }

  lemma LastActionCounts(s: State, rel: Rel, ok: bool, rc: Rc)
    requires Sized(s) && (rel.Accepted? || rel.Completed? || rel.PreFailed?) && rel.u < |s.g|
    requires TargetLocal(s, rel.u) && s.mid[rel.u] == rel && CountOk(s)
    ensures CountOk(Released(s, rel, ok, rc).0.(joiner := s.joiner))
  {
    LastActionAdvances(s, rel, ok, rc);
    CountsMove(s, Released(s, rel, ok, rc).0.(joiner := s.joiner), rel.u, Released(s, rel, ok, rc).1);
  }

  /** What one action of a release leaves for its caller to use, the joiner apart. */
  ghost predicate Handled(s: State, s1: State, rel: Rel, rel': Rel)
  {
    && !rel.NoRel? && rel.u < |s.g| && Advanced(s, s1.(joiner := s.joiner), rel.u, rel')
    && TargetLocal(s1.(joiner := s.joiner), rel.u) && CountOk(s1.(joiner := s.joiner))
    && FailOk(s1.(joiner := s.joiner)) && JoinOk(s1)
  }

  lemma ReleaseHandled(s: State, rel: Rel, ok: bool, rc: Rc)
    requires Sized(s) && !rel.NoRel? && rel.u < |s.g| && TargetLocal(s, rel.u) && s.mid[rel.u] == rel
    requires rel.Counted? ==> s.run[rel.u].Absent?
    requires CountOk(s) && FailOk(s) && JoinOk(s) && !s.sub.Waking? && s.inFlight >= 0
    ensures Handled(s, Released(s, rel, ok, rc).0, rel, Released(s, rel, ok, rc).1)
  {
    ReleaseAdvances(s, rel, ok, rc);
    ReleaseTarget(s, rel, ok, rc);
    ReleaseFails(s, rel, ok, rc);
    ReleaseCounts(s, rel, ok, rc);
    ReleaseJoin(s, rel, ok, rc);
  }

  lemma AdvanceTarget(s: State, s1: State, v: nat, i: nat, rel: Rel, rel': Rel, w: nat)
    requires Sized(s) && v < |s.g| && s.run[v] == Releasing(i, rel) && RunnerOk(s, v) && rel.u != v
    requires Advanced(s, s1, rel.u, rel') && TargetLocal(s1, rel.u)
    requires w < |s.g| && TargetOk(s, w)
    ensures TargetOk(Move(s1, v, if rel'.NoRel? then Loop(i + 1) else Releasing(i, rel')), w)
  {
    var s' := Move(s1, v, if rel'.NoRel? then Loop(i + 1) else Releasing(i, rel'));
    if w != v && w != rel.u { TargetFrame(s, s', w); }
  }

  lemma AdvanceRunner(s: State, s1: State, v: nat, i: nat, rel: Rel, rel': Rel, w: nat)
    requires Sized(s) && v < |s.g| && s.run[v] == Releasing(i, rel) && RunnerOk(s, v) && rel.u != v
    requires Advanced(s, s1, rel.u, rel')
    requires w < |s.g| && RunnerOk(s, w)
    ensures RunnerOk(Move(s1, v, if rel'.NoRel? then Loop(i + 1) else Releasing(i, rel')), w)
  {
    var s' := Move(s1, v, if rel'.NoRel? then Loop(i + 1) else Releasing(i, rel'));
    if w != v && w != rel.u { RunnerFrame(s, s', w); }
  }

  lemma RunnerAdvances(s: State, s1: State, v: nat, i: nat, rel: Rel, rel': Rel)
    requires Core(s) && v < |s.g| && s.run[v] == Releasing(i, rel) && RunnerOk(s, v)
    requires Advanced(s, s1, rel.u, rel') && TargetLocal(s1, rel.u) && CountOk(s1) && FailOk(s1)
    ensures Core(Move(s1, v, if rel'.NoRel? then Loop(i + 1) else Releasing(i, rel')))
  {
    var s' := Move(s1, v, if rel'.NoRel? then Loop(i + 1) else Releasing(i, rel'));
    EdgeFacts(s.g, v, i);
    forall w | 0 <= w < |s.g| ensures TargetOk(s', w) {
      assert TargetOk(s, w);
      AdvanceTarget(s, s1, v, i, rel, rel', w);
    }
    forall w | 0 <= w < |s.g| ensures RunnerOk(s', w) {
      assert RunnerOk(s, w);
      AdvanceRunner(s, s1, v, i, rel, rel', w);
    }
    WaitsFrame(s, s');
    RootsFrame(s, s');
    FlyingChange(s1.run, s1.mid, s'.run, s'.mid, v);
  }

  lemma RunnerAdvancesInv(s: State, s1: State, v: nat, i: nat, rel: Rel, rel': Rel)
    requires Core(s) && v < |s.g| && s.run[v] == Releasing(i, rel) && RunnerOk(s, v) && Handled(s, s1, rel, rel')
    ensures Inv(Move(s1, v, if rel'.NoRel? then Loop(i + 1) else Releasing(i, rel')))
  {
    RunnerAdvances(s, s1.(joiner := s.joiner), v, i, rel, rel');
    JoinerOnly(Move(s1.(joiner := s.joiner), v, if rel'.NoRel? then Loop(i + 1) else Releasing(i, rel')), s1.joiner);
  }

  /** What the invariant says of a node that is in the middle of a release. */
  lemma ReleasingFacts(s: State, v: nat)
    requires Inv(s) && v < |s.g| && s.run[v].Releasing?
    ensures RunnerOk(s, v) && s.started && !s.sub.Waking? && s.inFlight >= 0
    ensures var rel := s.run[v].rel;
            && !rel.NoRel? && rel.u < |s.g| && TargetLocal(s, rel.u) && s.mid[rel.u] == rel
            && (rel.Counted? ==> s.run[rel.u].Absent?)
  {
    assert RunnerOk(s, v);
    assert TargetOk(s, s.run[v].rel.u);
  }

  lemma ReleasingHandled(s: State, v: nat, ok: bool, rc: Rc)
    requires Inv(s) && v < |s.g| && s.run[v].Releasing? && !s.run[v].rel.NoRel? && s.run[v].rel.u < |s.g|
    ensures var released := Released(s, s.run[v].rel, ok, rc);
            Handled(s, released.0, s.run[v].rel, released.1)
  {
    ReleasingFacts(s, v);
    ReleaseHandled(s, s.run[v].rel, ok, rc);
  }

  lemma ReleasedMoves(s: State, v: nat, i: nat, rel: Rel, ok: bool, rc: Rc)
    requires Core(s) && v < |s.g| && s.run[v] == Releasing(i, rel) && RunnerOk(s, v)
    requires !rel.NoRel? && rel.u < |s.g| && Handled(s, Released(s, rel, ok, rc).0, rel, Released(s, rel, ok, rc).1)
    ensures Inv(ReleaseSucc(s, v, i, rel, ok, rc))
  {
    var released := Released(s, rel, ok, rc);
    RunnerAdvancesInv(s, released.0, v, i, rel, released.1);
  }

  lemma StepReleaseSucc(s: State, v: nat, ok: bool, rc: Rc)
    requires Inv(s) && Enabled(s, Go(v, ok, rc)) && s.run[v].Releasing?
    ensures Inv(RunStep(s, v, ok, rc))
  {
    assert RunnerOk(s, v);
    ReleasingHandled(s, v, ok, rc);
    ReleasedMoves(s, v, s.run[v].i, s.run[v].rel, ok, rc);
  }

  // ---------------------------------------------------------------- proof: the submitting thread

  lemma SubAdvancesOwn(s: State, s1: State, rel: Rel, rel': Rel, sub': Submitter)
    requires Sized(s) && s.sub.Roots? && s.sub.rel == rel && !rel.NoRel? && rel.u < |s.g|
    requires s.owner[rel.u].BySubmit? && s.mid[rel.u] == rel && (!rel'.NoRel? ==> sub'.Roots? && sub'.rel == rel')
    requires Advanced(s, s1, rel.u, rel') && TargetLocal(s1, rel.u) && TargetOk(s, rel.u)
    ensures TargetOk(s1.(sub := sub'), rel.u)
  {
  }

  lemma SubAdvanceTarget(s: State, s1: State, rel: Rel, rel': Rel, sub': Submitter, w: nat)
    requires Sized(s) && s.sub.Roots? && s.sub.rel == rel && !rel.NoRel? && rel.u < |s.g|
    requires s.owner[rel.u].BySubmit? && s.mid[rel.u] == rel && (!rel'.NoRel? ==> sub'.Roots? && sub'.rel == rel')
    requires Advanced(s, s1, rel.u, rel') && TargetLocal(s1, rel.u)
    requires w < |s.g| && TargetOk(s, w)
    ensures TargetOk(s1.(sub := sub'), w)
  {
    if w != rel.u { TargetFrame(s, s1.(sub := sub'), w); } else { SubAdvancesOwn(s, s1, rel, rel', sub'); }
  }

  lemma SubAdvances(s: State, s1: State, i: nat, rel: Rel, rel': Rel, sub': Submitter)
    requires Core(s) && s.sub == Roots(i, rel) && !rel.NoRel?
    requires Advanced(s, s1, rel.u, rel') && TargetLocal(s1, rel.u) && CountOk(s1) && FailOk(s1)
    requires sub' == if !rel'.NoRel? then Roots(i, rel')
                     else if rel.Completed? || rel.PreFailed? then Returned(rel.rc)
                     else Roots(i + 1, NoRel)
    requires sub'.Returned? ==> s1.failed
    ensures Core(s1.(sub := sub'))
  {
    var s' := s1.(sub := sub');
    assert TargetOk(s, i) && RunnerOk(s, i);
    forall w | 0 <= w < |s.g| ensures TargetOk(s', w) {
      assert TargetOk(s, w);
      SubAdvanceTarget(s, s1, rel, rel', sub', w);
    }
    forall w | 0 <= w < |s.g| ensures RunnerOk(s', w) {
      assert RunnerOk(s, w);
      if w != i { RunnerFrame(s, s', w); }
    }
    WaitsFrame(s, s');
    forall w | 0 <= w < |s.g| && IsRoot(s.g, w) ensures RootOwned(s', w) {
      assert RootOwned(s, w);
    }
  }

  lemma StepReleaseRoot(s: State, ok: bool, rc: Rc)
    requires Inv(s) && Enabled(s, Submit(ok, rc)) && s.sub.Roots? && !s.sub.rel.NoRel?
    ensures Inv(SubmitStep(s, ok, rc))
  {
    var i, rel := s.sub.i, s.sub.rel;
    assert TargetOk(s, i);
    ReleaseHandled(s, rel, ok, rc);
    var released := Released(s, rel, ok, rc);
    var s1, rel' := released.0, released.1;
    var s' := SubmitStep(s, ok, rc);
    SubAdvances(s, s1.(joiner := s.joiner), i, rel, rel', s'.sub);
    JoinerOnly(s1.(joiner := s.joiner, sub := s'.sub), s1.joiner);
    assert s' == s1.(joiner := s.joiner, sub := s'.sub).(joiner := s1.joiner);
  }

  lemma StepBeginRoot(s: State, i: nat)
    requires Inv(s) && s.sub == Roots(i, NoRel) && IsRoot(s.g, i)
    ensures Inv(NextRoot(s, i))
  {
    var s' := NextRoot(s, i);
    assert RootOwned(s, i) && TargetOk(s, i) && DegreeOk(s.g, i);
    AttemptsChange(s.owner, s.mid, s'.owner, s'.mid, i);
    FlyingChange(s.run, s.mid, s'.run, s'.mid, i);
    forall w | 0 <= w < |s.g| ensures TargetOk(s', w) {
      assert TargetOk(s, w);
      if w != i { TargetFrame(s, s', w); }
    }
    forall w | 0 <= w < |s.g| ensures RunnerOk(s', w) {
      assert RunnerOk(s, w);
      RunnerFrame(s, s', w);
    }
    WaitsFrame(s, s');
    forall w | 0 <= w < |s.g| && IsRoot(s.g, w) ensures RootOwned(s', w) {
      assert RootOwned(s, w);
    }
  }

  lemma StepSkipRoot(s: State, i: nat)
    requires Inv(s) && s.sub == Roots(i, NoRel) && !IsRoot(s.g, i)
    ensures Inv(NextRoot(s, i))
  {
    var s' := NextRoot(s, i);
    forall w | 0 <= w < |s.g| ensures TargetOk(s', w) {
      assert TargetOk(s, w);
      TargetFrame(s, s', w);
    }
    forall w | 0 <= w < |s.g| ensures RunnerOk(s', w) {
      assert RunnerOk(s, w);
      RunnerFrame(s, s', w);
    }
    WaitsFrame(s, s');
    forall w | 0 <= w < |s.g| && IsRoot(s.g, w) ensures RootOwned(s', w) {
      assert RootOwned(s, w);
    }
  }

  /** The submitting thread's moves that release nothing. */
  lemma StepEarlyFail(s: State, ok: bool, rc: Rc)
    requires Inv(s) && Enabled(s, Submit(ok, rc)) && !s.sub.Roots?
    ensures Inv(SubmitStep(s, ok, rc))
  {
    var s' := SubmitStep(s, ok, rc);
    forall w | 0 <= w < |s.g| ensures TargetOk(s', w) {
      assert TargetOk(s, w);
      TargetFrame(s, s', w);
    }
    forall w | 0 <= w < |s.g| ensures RunnerOk(s', w) {
      assert RunnerOk(s, w);
      RunnerFrame(s, s', w);
    }
    WaitsFrame(s, s');
    forall w | 0 <= w < |s.g| && IsRoot(s.g, w) ensures RootOwned(s', w) {
      assert RootOwned(s, w);
    }
  }

  lemma Seeded(s: State, s': State, u: nat)
    requires Inv(s) && !s.started && u < |s.g| && Sized(s') && s'.g == s.g && s'.decs == s.decs && s'.owner == s.owner
    requires s'.pending[u] == s.g[u].inDegree
    ensures WaitOk(s', u)
  {
    assert DegreeOk(s.g, u);
    forall v | 0 <= v < |s.g| ensures Drop(s.g[v].succs, s.decs[v]) == s.g[v].succs {
      assert TargetOk(s, v) && RunnerOk(s, v);
    }
    assert Waiting(s.g, s.decs, u) == Preds(s.g, u);
  }

  lemma StepStart(s: State, a: Step)
    requires Inv(s) && Enabled(s, a) && (a.StartEmpty? || a.StartFail? || a.StartRoots?)
    ensures Inv(Do(s, a))
  {
    var s' := Do(s, a);
    forall w | 0 <= w < |s.g| ensures TargetOk(s', w) {
      assert TargetOk(s, w);
      TargetFrame(s, s', w);
    }
    forall w | 0 <= w < |s.g| ensures RunnerOk(s', w) {
      assert RunnerOk(s, w);
      RunnerFrame(s, s', w);
    }
    forall w | 0 <= w < |s.g| && IsRoot(s.g, w) ensures RootOwned(s', w) {
      assert RootOwned(s, w);
    }
    if a.StartRoots? {
      forall u | 0 <= u < |s.g| ensures WaitOk(s', u) { Seeded(s, s', u); }
    }
  }

  lemma StepJoin(s: State, a: Step)
    requires Inv(s) && Enabled(s, a) && (a.Join? || a.JoinWakes? || a.JoinTimesOut?)
    ensures Inv(Do(s, a))
  {
    JoinerOnly(s, Do(s, a).joiner);
  }

  lemma StepSubmit(s: State, ok: bool, rc: Rc)
    requires Inv(s) && Enabled(s, Submit(ok, rc))
    ensures Inv(SubmitStep(s, ok, rc))
  {
    if !s.sub.Roots? { StepEarlyFail(s, ok, rc); }
    else if s.sub.rel.NoRel? {
      if IsRoot(s.g, s.sub.i) { StepBeginRoot(s, s.sub.i); } else { StepSkipRoot(s, s.sub.i); }
    }
    else { StepReleaseRoot(s, ok, rc); }
  }

  lemma StepRun(s: State, v: nat, ok: bool, rc: Rc)
    requires Inv(s) && Enabled(s, Go(v, ok, rc))
    ensures Inv(RunStep(s, v, ok, rc))
  {
    if s.run[v].Epilogue? { StepEpilogue(s, v, ok, rc); }
    else if s.run[v].Passed? { StepFetchSub(s, v, ok, rc); }
    else if s.run[v].Releasing? { StepReleaseSucc(s, v, ok, rc); }
    else { StepSimple(s, v, ok, rc); }
  }

  /** Every step of every thread keeps the invariant. */
  lemma InvStep(s: State, s': State)
    requires Inv(s) && Next(s, s')
    ensures Inv(s')
  {
    var a :| Enabled(s, a) && s' == Do(s, a);
    match a
    case Submit(ok, rc) => StepSubmit(s, ok, rc);
    case Go(v, ok, rc) => StepRun(s, v, ok, rc);
    case Join => StepJoin(s, a);
    case JoinWakes => StepJoin(s, a);
    case JoinTimesOut => StepJoin(s, a);
    case StartEmpty => StepStart(s, a);
    case StartFail(_) => StepStart(s, a);
    case StartRoots => StepStart(s, a);
  }

  lemma InitInv(s: State)
    requires Init(s)
    ensures Inv(s)
  {
    forall w | 0 <= w < |s.g| ensures TargetOk(s, w) && RunnerOk(s, w) {}
    assert Flying(s.run, s.mid) == {};
    assert Attempts(s.owner, s.mid) == {};
  }

  lemma Reachable(r: seq<State>)
    requires IsRun(Init, Next, r)
    ensures forall i :: 0 <= i < |r| ==> Inv(r[i])
  {
    forall s | Init(s) ensures Inv(s) { InitInv(s); }
    forall s, s' | Inv(s) && Next(s, s') ensures Inv(s') { InvStep(s, s'); }
    RunKeeps(Init, Next, Inv, r);
  }

  // ---------------------------------------------------------------- theorems: order and progress

  /** The function of v has returned and its future is ready. */
  predicate FnDone(s: State, v: nat)
    requires Sized(s) && v < |s.g|
  {
    s.runs[v] == 1 && s.futureReady[v] && !s.run[v].Queued? && !s.run[v].Running? && !s.run[v].FnReturned?
  }

  lemma NoDecrementWaits(g: Graph, decs: seq<nat>, u: nat, v: nat)
    requires |decs| == |g| && v in Preds(g, u)
    ensures decs[v] == 0 ==> v in Waiting(g, decs, u)
  {
    assert Drop(g[v].succs, 0) == g[v].succs;
  }

  lemma PredReturned(s: State, u: nat, v: nat)
    requires Inv(s) && u < |s.g| && !s.owner[u].Nobody? && v in Preds(s.g, u)
    ensures FnDone(s, v)
  {
    assert WaitOk(s, u);
    NoDecrementWaits(s.g, s.decs, u, v);
    assert RunnerOk(s, v) && TargetOk(s, v);
  }

  /** In every reachable state of every run, a node's function was started at most once, and only after
      the functions of all its predecessors had returned and their futures were ready. */
  lemma RunsOnceAfterPredecessors(r: seq<State>, k: nat, u: nat)
    requires IsRun(Init, Next, r) && k < |r| && u < |r[k].g|
    ensures Sized(r[k]) && r[k].runs[u] <= 1
    ensures r[k].runs[u] == 1 ==> r[k].g[u].added && forall v :: v in Preds(r[k].g, u) ==> FnDone(r[k], v)
  {
    Reachable(r);
    var s := r[k];
    assert TargetOk(s, u);
    if s.runs[u] == 1 {
      forall v | v in Preds(s.g, u) ensures FnDone(s, v) { PredReturned(s, u, v); }
    }
  }

  lemma NothingFlies(s: State, v: nat)
    requires Inv(s) && s.inFlight == 0 && v < |s.g|
    ensures s.run[v].Absent? || s.run[v].Finished?
    ensures !s.sub.Roots? ==> s.mid[v].NoRel?
  {
    assert Flying(s.run, s.mid) == {};
    assert v !in Flying(s.run, s.mid);
    assert TargetOk(s, v);
    if !s.mid[v].NoRel? && s.owner[v].ByRunner? {
      assert s.owner[v].v !in Flying(s.run, s.mid);
    }
  }

  lemma RootsReleased(s: State, u: nat)
    requires Inv(s) && s.sub.Returned? && s.started && !s.failed && u < |s.g|
    ensures IsRoot(s.g, u) ==> !s.owner[u].Nobody?
  {
    assert IsRoot(s.g, u) ==> RootOwned(s, u);
  }

  /** A node that was never started, in a state where nothing is in flight, waits for another such node. */
  lemma UnreleasedWaits(s: State, x: nat, left: set<nat>)
    requires Inv(s) && s.sub.Returned? && s.started && !s.failed && s.inFlight == 0
    requires left == set u | 0 <= u < |s.g| && s.g[u].added && s.run[u].Absent?
    requires x in left
    ensures HasPredIn(s.g, left, x)
  {
    NothingFlies(s, x);
    assert TargetOk(s, x) && WaitOk(s, x) && DegreeOk(s.g, x);
    assert s.owner[x].Nobody?;
    RootsReleased(s, x);
    assert Preds(s.g, x) != {};
    var v :| v in Waiting(s.g, s.decs, x);
    NothingFlies(s, v);
    assert RunnerOk(s, v);
    assert x in s.g[v].succs;
    assert Edge(s.g, v, x);
  }

  /** Progress: once the root loop has returned and nothing is in flight, and no release ever failed,
      every added node was released, ran exactly once and is finished. */
  lemma QuietMeansComplete(r: seq<State>, k: nat)
    requires IsRun(Init, Next, r) && k < |r| && Sized(r[k])
    requires r[k].started && r[k].sub.Returned? && r[k].failures == [] && r[k].inFlight == 0
    ensures forall u :: 0 <= u < |r[k].g| && r[k].g[u].added ==> r[k].run[u].Finished? && r[k].runs[u] == 1
    ensures r[k].released == r[k].addedCount && Drained(r[k])
  {
    Reachable(r);
    var s := r[k];
    var left := set u | 0 <= u < |s.g| && s.g[u].added && s.run[u].Absent?;
    forall x | x in left ensures HasPredIn(s.g, left, x) { UnreleasedWaits(s, x, left); }
    if v :| v in left { StuckHasCycle(s.g, left, v); }
    forall u | 0 <= u < |s.g|
      ensures s.g[u].added ==> s.run[u].Finished? && s.runs[u] == 1 && Booked(s.owner[u], s.mid[u])
      ensures Booked(s.owner[u], s.mid[u]) ==> s.g[u].added
    {
      NothingFlies(s, u);
      assert TargetOk(s, u);
      assert s.g[u].added ==> u !in left;
    }
    assert Attempts(s.owner, s.mid) == Ids(s.g);
  }

  // ---------------------------------------------------------------- theorems: drain

  /** After submit returned, a drained DAG has nothing queued, running or being released, every
      initialised future is ready, and no unsignalled joiner. */
  lemma DrainedMeansDone(r: seq<State>, k: nat)
    requires IsRun(Init, Next, r) && k < |r| && r[k].sub.Returned? && Drained(r[k])
    ensures Sized(r[k])
    ensures forall v :: 0 <= v < |r[k].g| ==> r[k].run[v].Absent? || r[k].run[v].Finished?
    ensures forall v :: 0 <= v < |r[k].g| ==> r[k].mid[v].NoRel?
    ensures forall v :: 0 <= v < |r[k].g| && r[k].futureOwner[v] ==> r[k].futureReady[v]
    ensures r[k].joiner != Asleep(false)
  {
    Reachable(r);
    var s := r[k];
    forall v | 0 <= v < |s.g|
      ensures (s.run[v].Absent? || s.run[v].Finished?) && s.mid[v].NoRel? && (s.futureOwner[v] ==> s.futureReady[v])
    {
      NothingFlies(s, v);
      assert TargetOk(s, v);
    }
  }

  lemma DrainedStep(s: State, s': State)
    requires Inv(s) && Next(s, s') && s.sub.Returned? && Drained(s)
    ensures s' == s.(joiner := s'.joiner)
  {
    var a :| Enabled(s, a) && s' == Do(s, a);
    if a.Go? { NothingFlies(s, a.v); }
  }

  lemma InvAt(r: seq<State>, k: nat)
    requires IsRun(Init, Next, r) && k < |r|
    ensures Inv(r[k])
  {
    Reachable(r);
  }

  lemma DrainedChain(s0: State, s: State, s': State)
    requires s == s0.(joiner := s.joiner) && s0.sub.Returned? && Drained(s0) && Inv(s) && Next(s, s')
    ensures s' == s0.(joiner := s'.joiner)
  {
    DrainedStep(s, s');
  }

  /** ... and from then on only the joiner moves: no node is ever released again. */
  lemma {:induction false} DrainedForever(r: seq<State>, k: nat, m: nat)
    requires IsRun(Init, Next, r) && k <= m < |r| && r[k].sub.Returned? && Drained(r[k])
    ensures r[m] == r[k].(joiner := r[m].joiner)
  {
    if k < m {
      DrainedForever(r, k, m - 1);
      InvAt(r, m - 1);
      StepAt(Init, Next, r, m);
      DrainedChain(r[k], r[m - 1], r[m]);
    }
  }

  lemma JoinDecides(s: State, s': State)
    requires FailOk(s) && Next(s, s') && s.joiner.Joining? && s'.joiner.Joined?
    ensures Drained(s') && s'.joiner.rc == (if s'.failures == [] then OK else s'.failures[0])
  {
    var a :| Enabled(s, a) && s' == Do(s, a);
    DoGrows(s, a);
  }

  lemma DoGrows(s: State, a: Step)
    requires Enabled(s, a)
    ensures s.failures <= Do(s, a).failures
    ensures !a.Join? && !a.JoinWakes? && !a.JoinTimesOut? ==> Grows(s, Do(s, a))
  {
  }

  /** In no reachable state does the joiner sleep unsignalled on a drained DAG, except while submit is about
      to signal; it returns success only if nothing failed and otherwise the first failure recorded. */
  lemma JoinerIsWokenAndTold(r: seq<State>, k: nat)
    requires IsRun(Init, Next, r) && k < |r|
    ensures r[k].joiner == Asleep(false) && !r[k].sub.Waking? ==> !Drained(r[k])
    ensures k > 0 && r[k].joiner.Joined? && r[k - 1].joiner.Joining? ==>
              Drained(r[k]) && r[k].joiner.rc == (if r[k].failures == [] then OK else r[k].failures[0])
  {
    InvAt(r, k);
    if k > 0 {
      InvAt(r, k - 1);
      StepAt(Init, Next, r, k);
      if r[k].joiner.Joined? && r[k - 1].joiner.Joining? { JoinDecides(r[k - 1], r[k]); }
    }
  }

  /** Recorded failures are never dropped or reordered, so the first one stays first. */
  lemma {:induction false} FailuresStick(r: seq<State>, k: nat, m: nat)
    requires IsRun(Init, Next, r) && k <= m < |r|
    ensures r[k].failures <= r[m].failures
  {
    if k < m {
      FailuresStick(r, k, m - 1);
      var s, s' := r[m - 1], r[m];
      StepAt(Init, Next, r, m);
      var a :| Enabled(s, a) && s' == Do(s, a);
      DoGrows(s, a);
    }
  }

  // ---------------------------------------------------------------- theorems: drain before submit returned

  ghost predicate RootFrom(g: Graph, i: nat)
  {
    exists u :: i <= u < |g| && IsRoot(g, u)
  }

  /** The root loop, which does not look at `failed`, will still hand a root to the pool if it can. */
  ghost predicate WillRelease(s: State)
  {
    match s.sub
    case Roots(i, NoRel) => RootFrom(s.g, i)
    case Roots(i, Enter(_)) => true
    case Roots(i, Owned(_)) => true
    case Roots(i, Accepted(_)) => RootFrom(s.g, i + 1)
    case _ => false
  }

  ghost predicate From(s: State, x: State)
  {
    x == s
  }

  /** Some continuation of `s` leaves the drained states. */
  ghost predicate CanUndrain(s: State)
  {
    exists p :: IsRun((x: State) => From(s, x), Next, p) && !Drained(p[|p| - 1])
  }

  lemma UnbookedMeansFailed(s: State, u: nat)
    requires Inv(s) && Drained(s) && u < |s.g| && s.g[u].added && !Booked(s.owner[u], s.mid[u])
    ensures s.failed
  {
    forall w | w in Attempts(s.owner, s.mid) ensures w in Ids(s.g) - {u} { assert TargetOk(s, w); }
    SubsetSize(Attempts(s.owner, s.mid), Ids(s.g) - {u});
  }

  lemma DrainedRoots(s: State)
    requires Inv(s) && Drained(s) && s.sub.Roots?
    ensures var m := s.sub.rel; m.NoRel? || m.Enter? || m.Owned? || m.Accepted? || m.PreFailed?
    ensures !s.sub.rel.NoRel? ==> s.failed
  {
    if !s.sub.rel.NoRel? {
      assert TargetOk(s, s.sub.i);
      assert s.sub.i !in Flying(s.run, s.mid);
      UnbookedMeansFailed(s, s.sub.i);
    }
  }

  lemma SettledRoots(s: State, ok: bool, rc: Rc)
    requires Inv(s) && Enabled(s, Submit(ok, rc)) && Drained(s) && !WillRelease(s) && s.sub.Roots?
    ensures var s' := SubmitStep(s, ok, rc); Drained(s') && !WillRelease(s')
  {
    DrainedRoots(s);
    var i := s.sub.i;
    if s.sub.rel.NoRel? && i < |s.g| { assert !IsRoot(s.g, i); }
  }

  lemma SettledStart(s: State)
    requires Inv(s) && s.sub.Before? && Drained(s)
    ensures Ids(s.g) == {}
  {
    if u :| u in Ids(s.g) { UnbookedMeansFailed(s, u); }
  }

  lemma SettledOther(s: State, a: Step)
    requires Inv(s) && Enabled(s, a) && Drained(s) && !WillRelease(s) && !a.Go? && !(a.Submit? && s.sub.Roots?)
    ensures Drained(Do(s, a)) && !WillRelease(Do(s, a))
  {
    if s.sub.Before? { SettledStart(s); }
  }

  lemma SettledStep(s: State, s': State)
    requires Inv(s) && Next(s, s') && Drained(s) && !WillRelease(s)
    ensures Drained(s') && !WillRelease(s')
  {
    var a :| Enabled(s, a) && s' == Do(s, a);
    if a.Go? {
      NothingFlies(s, a.v);
      assert false;
    } else if a.Submit? && s.sub.Roots? {
      SettledRoots(s, a.ok, a.rc);
    } else {
      SettledOther(s, a);
    }
  }

  lemma {:induction false} SettledForever(s: State, p: seq<State>, k: nat)
    requires Inv(s) && Drained(s) && !WillRelease(s)
    requires IsRun((x: State) => From(s, x), Next, p) && k < |p|
    ensures Inv(p[k]) && Drained(p[k]) && !WillRelease(p[k])
  {
    if k > 0 {
      SettledForever(s, p, k - 1);
      StepAt((x: State) => From(s, x), Next, p, k);
      SettledStep(p[k - 1], p[k]);
      InvStep(p[k - 1], p[k]);
    }
  }

  function Rank(rel: Rel): nat
  {
    if rel.NoRel? then 3 else if rel.Enter? then 2 else if rel.Owned? then 1 else 0
  }

  lemma WillStep(s: State)
    requires Inv(s) && Drained(s) && WillRelease(s)
    ensures Enabled(s, Submit(true, OK))
    ensures var s' := SubmitStep(s, true, OK);
            Drained(s') ==>
              && WillRelease(s') && s'.g == s.g && s'.sub.i <= |s.g|
              && (s.sub.i < s'.sub.i || (s.sub.i == s'.sub.i && Rank(s'.sub.rel) < Rank(s.sub.rel)))
  {
    DrainedRoots(s);
    var s' := SubmitStep(s, true, OK);
    if s.sub.rel.NoRel? {
      var u :| s.sub.i <= u < |s.g| && IsRoot(s.g, u);
      if !IsRoot(s.g, s.sub.i) { assert s.sub.i + 1 <= u; }
    }
  }

  lemma {:induction false} WillUndrain(s: State) returns (p: seq<State>)
    requires Inv(s) && Drained(s) && WillRelease(s)
    ensures IsRun((x: State) => From(s, x), Next, p) && !Drained(p[|p| - 1])
    decreases |s.g| - s.sub.i, Rank(s.sub.rel)
  {
    WillStep(s);
    var s' := SubmitStep(s, true, OK);
    assert s' == Do(s, Submit(true, OK));
    assert Next(s, s');
    if !Drained(s') {
      p := [s, s'];
    } else {
      InvStep(s, s');
      var p1 := WillUndrain(s');
      Prepended((x: State) => From(s', x), (x: State) => From(s, x), Next, s, p1);
      p := [s] + p1;
    }
  }

  /** When a drained DAG can stop being drained: exactly while the root loop will still reach a root. */
  lemma DrainLostIffRootsLeft(r: seq<State>, k: nat)
    requires IsRun(Init, Next, r) && k < |r| && Drained(r[k])
    ensures CanUndrain(r[k]) <==> WillRelease(r[k])
  {
    InvAt(r, k);
    var s := r[k];
    if WillRelease(s) {
      var p := WillUndrain(s);
    } else {
      forall p | IsRun((x: State) => From(s, x), Next, p) ensures Drained(p[|p| - 1]) { SettledForever(s, p, |p| - 1); }
    }
  }

  // The case occurs: nodes 0 and 1 are roots, node 2 depends on node 0; node 0 runs to its end, and the
  // release of node 2 fails, while the submitting thread stands before node 1.

  const FORK: Graph := [Node(true, [2], 0), Node(true, [], 0), Node(true, [], 1)]

  lemma ForkPreds()
    ensures Preds(FORK, 2) == {0} && Preds(FORK, 0) == {} && Preds(FORK, 1) == {}
  {
  }

  lemma ForkWellFormed()
    ensures WellFormed(FORK) && Ids(FORK) == {0, 1, 2}
  {
    ForkPreds();
    assert DegreeOk(FORK, 0) && DegreeOk(FORK, 1) && DegreeOk(FORK, 2);
  }

  lemma ForkIsBuilt()
    ensures WellFormed(FORK) && !HasCycle(FORK) && Ids(FORK) == {0, 1, 2}
  {
    ForkWellFormed();
    var order: seq<nat> := [0, 1, 2];
    assert PredsBefore(FORK, order, 2) by { assert order[..2] == [0, 1]; }
    assert Topological(FORK, order);
    OrderedHasNoCycle(FORK, order);
  }

  function AtStart(): State
  {
    State(FORK, false, false, OK, 0, 0, 3, [0, 0, 0], [false, false, false], [false, false, false], Before,
          [Absent, Absent, Absent], Outside, [Nobody, Nobody, Nobody], [NoRel, NoRel, NoRel],
          [0, 0, 0], [0, 0, 0], [], false)
  }

  lemma Took(r: seq<State>, a: Step, s': State) returns (r': seq<State>)
    requires IsRun(Init, Next, r) && Enabled(r[|r| - 1], a) && s' == Do(r[|r| - 1], a)
    ensures IsRun(Init, Next, r') && r' == r + [s']
  {
    r' := r + [s'];
    assert Next(r[|r| - 1], s');
    Extended(Init, Next, r, s');
  }

  function BeforeRoot0(): State
  {
    AtStart().(submitted := true, started := true, pending := [0, 0, 1], sub := Roots(0, NoRel))
  }

  function BeforeRoot1(): State
  {
    BeforeRoot0().(sub := Roots(1, NoRel), futureOwner := [true, false, false], run := [Queued, Absent, Absent],
                   owner := [BySubmit, Nobody, Nobody], inFlight := 1, released := 1)
  }

  function BeforeNode2(): State
  {
    BeforeRoot1().(run := [Passed(0), Absent, Absent], runs := [1, 0, 0], futureReady := [true, false, false])
  }

  lemma Submitted() returns (r: seq<State>)
    ensures IsRun(Init, Next, r) && r[|r| - 1] == BeforeRoot0()
  {
    ForkIsBuilt();
    assert Init(AtStart());
    r := Took([AtStart()], StartRoots, BeforeRoot0());
  }

  lemma Root0Released() returns (r: seq<State>)
    ensures IsRun(Init, Next, r) && r[|r| - 1] == BeforeRoot1()
  {
    r := Submitted();
    var s1 := BeforeRoot0();
    var s2 := s1.(owner := [BySubmit, Nobody, Nobody], mid := [Enter(0), NoRel, NoRel], sub := Roots(0, Enter(0)));
    r := Took(r, Submit(true, OK), s2);
    var s3 := s2.(futureOwner := [true, false, false], mid := [Owned(0), NoRel, NoRel], sub := Roots(0, Owned(0)));
    r := Took(r, Submit(true, OK), s3);
    var s4 := s3.(inFlight := 1, mid := [Counted(0), NoRel, NoRel], sub := Roots(0, Counted(0)));
    r := Took(r, Submit(true, OK), s4);
    var s5 := s4.(run := [Queued, Absent, Absent], mid := [Accepted(0), NoRel, NoRel], sub := Roots(0, Accepted(0)));
    r := Took(r, Submit(true, OK), s5);
    r := Took(r, Submit(true, OK), BeforeRoot1());
  }

  lemma Node0Ran() returns (r: seq<State>)
    ensures IsRun(Init, Next, r) && r[|r| - 1] == BeforeNode2()
  {
    r := Root0Released();
    var s1 := BeforeRoot1().(run := [Running, Absent, Absent], runs := [1, 0, 0]);
    r := Took(r, Go(0, true, OK), s1);
    var s2 := s1.(run := [FnReturned, Absent, Absent]);
    r := Took(r, Go(0, true, OK), s2);
    var s3 := s2.(run := [Loop(0), Absent, Absent], futureReady := [true, false, false]);
    r := Took(r, Go(0, true, OK), s3);
    r := Took(r, Go(0, true, OK), BeforeNode2());
  }

  function AfterNode2(): State
  {
    BeforeNode2().(pending := [0, 0, 0], decs := [1, 0, 0], owner := [BySubmit, Nobody, ByRunner(0)],
                   run := [Loop(1), Absent, Absent], failed := true, failError := ALLOC, failures := [ALLOC],
                   released := 2)
  }

  lemma Node2Refused() returns (r: seq<State>)
    ensures IsRun(Init, Next, r) && r[|r| - 1] == AfterNode2()
  {
    r := Node0Ran();
    var s5 := BeforeNode2().(pending := [0, 0, 0], decs := [1, 0, 0], owner := [BySubmit, Nobody, ByRunner(0)],
                mid := [NoRel, NoRel, Enter(2)], run := [Releasing(0, Enter(2)), Absent, Absent]);
    r := Took(r, Go(0, true, OK), s5);
    var s6 := s5.(mid := [NoRel, NoRel, PreFailed(2, ALLOC)],
                  run := [Releasing(0, PreFailed(2, ALLOC)), Absent, Absent]);
    r := Took(r, Go(0, false, ALLOC), s6);
    r := Took(r, Go(0, true, OK), AfterNode2());
  }

  lemma Node0Finished() returns (r: seq<State>)
    ensures IsRun(Init, Next, r) && Drained(r[|r| - 1])
    ensures r[|r| - 1].g == FORK && r[|r| - 1].sub == Roots(1, NoRel)
  {
    r := Node2Refused();
    var s8 := AfterNode2().(run := [Epilogue(1), Absent, Absent]);
    r := Took(r, Go(0, true, OK), s8);
    var s9 := s8.(run := [Finished(1), Absent, Absent], inFlight := 0);
    r := Took(r, Go(0, true, OK), s9);
  }

  /** A reachable drained state from which a later state is not drained. */
  lemma DrainCanBeLost() returns (r: seq<State>)
    ensures IsRun(Init, Next, r) && Drained(r[|r| - 1]) && CanUndrain(r[|r| - 1])
  {
    r := Node0Finished();
    assert IsRoot(FORK, 1);
    DrainLostIffRootsLeft(r, |r| - 1);
  }
}
