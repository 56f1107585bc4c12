/** Waking the owner of a ready coroutine: the timer thread and cancellers push it into the FIFO of its worker
    and post one token of the semaphore that all workers share. */
module Owners {
  import opened Collections
  import opened Runs
  import opened Wakeup

  /** Looks at its own FIFO before it can sleep. */
  predicate WillResume(w: Worker)
  {
    w.Top? || w.Resume? || w.Commit? || w.Running?
  }

  /** A token is available or about to be posted. */
  ghost predicate WakeupComing(s: State)
  {
    s.tokens > 0 || s.pushers > 0 || Some(s.submitters, WillPost)
  }

  /** The ready coroutines of worker w wait for nobody. */
  ghost predicate Untended(s: State, w: nat)
  {
    Sized(s) && w < |s.workers| && s.fifos[w] > 0 && !WakeupComing(s) && !WillResume(s.workers[w])
  }

  /** Another worker takes the last token while the coroutines of w depend on it. */
  ghost predicate Forgets(s: State, a: Step, w: nat)
  {
    && a.Go? && a.w != w && a.w < |s.workers| && s.workers[a.w].Blocked?
    && w < |s.workers| && w < |s.fifos| && s.fifos[w] > 0 && !WillResume(s.workers[w])
    && s.tokens == 1 && s.pushers == 0 && !Some(s.submitters, WillPost)
  }

  /** A new token, a new poster or pusher, or the owner finds a task or sees shutdown in time. */
  ghost predicate Reminds(s: State, a: Step, w: nat)
    requires Enabled(s, a)
  {
    || a.LaneSubmit? || a.Ready? || a.Shutdown? || a.Publish? || a.Spill?
    || (a.Go? && a.w == w && Finds(s, w, a.n, a.victim))
  }

  // ---------------------------------------------------------------- proof

  lemma OwnMove(s: State, w: nat, n: nat, victim: nat)
    requires Enabled(s, Go(w, n, victim)) && !s.workers[w].Blocked?
    ensures var s' := GoStep(s, w, n, victim);
            && (s'.fifos[w] > 0 && !WillResume(s'.workers[w]) ==>
                  s.fifos[w] > 0 && !WillResume(s.workers[w]) && !Finds(s, w, n, victim))
            && (s.fifos[w] > 0 && !WillResume(s.workers[w]) && !Finds(s, w, n, victim) ==>
                  s'.fifos[w] > 0 && !WillResume(s'.workers[w]))
  {
  }

  lemma ByOwner(s: State, a: Step)
    requires Inv(s) && Enabled(s, a) && ByWorker(a)
    ensures Untended(Do(s, a), a.w) <==> Untended(s, a.w) && !Reminds(s, a, a.w)
  {
    assert WorkerOk(s, a.w);
    if a.Go? && !s.workers[a.w].Blocked? { OwnMove(s, a.w, a.n, a.victim); }
  }

  lemma ByOther(s: State, a: Step, w: nat)
    requires Inv(s) && Enabled(s, a) && ByWorker(a) && a.w != w
    ensures Untended(Do(s, a), w) <==> Untended(s, w) || Forgets(s, a, w)
  {
    if a.Go? && w < |s.workers| { GoQueues(s, a.w, a.n, a.victim); }
  }

  lemma ByOutside(s: State, a: Step, w: nat)
    requires Inv(s) && Enabled(s, a) && !ByWorker(a)
    ensures Untended(Do(s, a), w) <==> Untended(s, w) && !Reminds(s, a, w)
  {
    assert Do(s, a).workers == s.workers;
    if w < |s.workers| { assert WorkerOk(s, w); }
    if BySubmitter(a) { PostersKept(s, a); }
    if a.Post? { SomeUpdate(s.submitters, a.i, Idle, WillPost); }
  }

  /** One step, both ways. */
  lemma UntendedStep(s: State, a: Step, w: nat)
    requires Inv(s) && Enabled(s, a)
    ensures Untended(Do(s, a), w) <==> Forgets(s, a, w) || (Untended(s, w) && !Reminds(s, a, w))
  {
    if !ByWorker(a) { ByOutside(s, a, w); }
    else if a.w == w { ByOwner(s, a); }
    else { ByOther(s, a, w); }
  }

  // ---------------------------------------------------------------- theorems

  /** The one semaphore is shared: a ready coroutine loses its wake-up exactly when another worker takes the last
      token. */
  lemma OwnerForgottenIff(r: seq<State>, k: nat, a: Step, w: nat)
    requires IsRun(Init, Next, r) && k < |r| && Enabled(r[k], a) && !Untended(r[k], w)
    ensures Untended(Do(r[k], a), w) <==> Forgets(r[k], a, w)
  {
    InvAt(r, k);
    UntendedStep(r[k], a, w);
  }

  lemma OwnerRemindedIff(r: seq<State>, k: nat, a: Step, w: nat)
    requires IsRun(Init, Next, r) && k < |r| && Enabled(r[k], a) && Untended(r[k], w)
    ensures !Untended(Do(r[k], a), w) <==> Reminds(r[k], a, w)
  {
    InvAt(r, k);
    UntendedStep(r[k], a, w);
  }

  ghost predicate Forgotten(s: State, s': State, w: nat)
  {
    exists a :: Enabled(s, a) && Forgets(s, a, w) && s' == Do(s, a)
  }

  ghost predicate Reminded(s: State, s': State, w: nat)
  {
    exists a :: Enabled(s, a) && Reminds(s, a, w) && s' == Do(s, a)
  }

  lemma UntendedGoverned(s: State, s': State, w: nat)
    requires Inv(s) && Next(s, s')
    ensures Inv(s')
    ensures Untended(s', w) <==> Forgotten(s, s', w) || (Untended(s, w) && !Reminded(s, s', w))
  {
    InvStep(s, s');
    var a :| Enabled(s, a) && s' == Do(s, a);
    UntendedStep(s, a, w);
    if Forgotten(s, s', w) {
      var b :| Enabled(s, b) && Forgets(s, b, w) && s' == Do(s, b);
      UntendedStep(s, b, w);
    } else if Reminded(s, s', w) {
      var b :| Enabled(s, b) && Reminds(s, b, w) && s' == Do(s, b);
      UntendedStep(s, b, w);
    }
  }

  /** Worker w was forgotten at i and not reminded from there to k. */
  ghost predicate ForgottenAt(r: seq<State>, i: nat, k: nat, w: nat)
  {
    Since((s, s') => Forgotten(s, s', w), (s, s') => Reminded(s, s', w), r, i, k)
  }

  /** In every reachable state the ready coroutines of worker w wait for nobody if and only if w was forgotten
      and not reminded since. */
  lemma UntendedIffForgotten(r: seq<State>, k: nat, w: nat)
    requires IsRun(Init, Next, r) && k < |r|
    ensures Untended(r[k], w) <==> exists i :: ForgottenAt(r, i, k, w)
  {
    var bad := (s: State) => Untended(s, w);
    var starts := (s: State, s': State) => Forgotten(s, s', w);
    var ends := (s: State, s': State) => Reminded(s, s', w);
    forall s | Init(s) ensures Inv(s) && !bad(s) { InitInv(s); }
    forall s, s' | Inv(s) && Next(s, s') ensures Inv(s') && Governs(starts, ends, bad, s, s') {
      UntendedGoverned(s, s', w);
    }
    HoldsIffSince(Init, Next, Inv, bad, starts, ends, r, k);
    if i :| Since(starts, ends, r, i, k) { assert ForgottenAt(r, i, k, w); }
    if i :| ForgottenAt(r, i, k, w) { assert Since(starts, ends, r, i, k); }
  }

  /** With everybody asleep and no wake-up coming, worker w has a ready coroutine left if and only if it was
      forgotten and not reminded since. */
  lemma ReadyLeftIff(r: seq<State>, k: nat, w: nat)
    requires IsRun(Init, Next, r) && k < |r| && AllAsleep(r[k]) && r[k].pushers == 0
    requires Sized(r[k]) && w < |r[k].workers|
    ensures r[k].fifos[w] > 0 <==> exists i :: ForgottenAt(r, i, k, w)
  {
    UntendedIffForgotten(r, k, w);
  }

  // ---------------------------------------------------------------- when it can happen

  /** A run of n workers that ends asleep, with no wake-up coming, and a ready coroutine left. */
  ghost predicate Strands(n: nat, r: seq<State>)
  {
    && IsRun(Init, Next, r) && |r[0].workers| == n
    && var s := r[|r| - 1];
       AllAsleep(s) && s.pushers == 0 && !AllZero(s.fifos)
  }

  lemma WorkersFixed(r: seq<State>, k: nat)
    requires IsRun(Init, Next, r) && k < |r|
    ensures Sized(r[k]) && |r[k].workers| == |r[0].workers|
  {
    var n := |r[0].workers|;
    forall s, s' | (Sized(s) && |s.workers| == n) && Next(s, s') ensures Sized(s') && |s'.workers| == n {
      var a :| Enabled(s, a) && s' == Do(s, a);
      WorkersKept(s, a);
    }
    RunKeepsFrom(Init, Next, (s: State) => Sized(s) && |s.workers| == n, r, 0);
  }

  /** In a pool of one worker nobody else can take its token. */
  lemma OneWorkerNeverStrands(n: nat, r: seq<State>)
    requires Strands(n, r)
    ensures n >= 2
  {
    var k := |r| - 1;
    WorkersFixed(r, k);
    var w :| 0 <= w < |r[k].fifos| && r[k].fifos[w] != 0;
    UntendedIffForgotten(r, k, w);
    var i :| ForgottenAt(r, i, k, w);
    WorkersFixed(r, i);
  }

  /** n workers, the first j asleep; worker 0 owns `sleeping` coroutines in the timer heap. */
  function Drowsy(n: nat, j: nat, sleeping: nat): State
    requires n > 0
  {
    var zeros := seq(n, _ => 0);
    State(4, [], 0, 0, zeros, zeros, zeros[0 := sleeping], 0, 0, 0, 0, false, Free,
          seq(n, w => if w < j then Blocked else Top), [])
  }

  lemma Submitted(n: nat) returns (r: seq<State>)
    requires n > 0
    ensures IsRun(Init, Next, r) && |r[0].workers| == n
    ensures r[|r| - 1] == At(Drowsy(n, 0, 0).(normal := 1, tokens := 1), 0, Top)
  {
    var s := Drowsy(n, 0, 0);
    var t := s.(normal := 1, tokens := 1);
    r := Took([s], LaneSubmit(false), t);
    assert t.workers[0 := Top] == t.workers;
  }

  /** A coroutine task is submitted to a lane; worker 0 gets as far as the lanes. */
  lemma LanesReached(n: nat) returns (r: seq<State>)
    requires n > 0
    ensures IsRun(Init, Next, r) && |r[0].workers| == n
    ensures r[|r| - 1] == At(Drowsy(n, 0, 0).(normal := 1, tokens := 1), 0, Scan4)
  {
    var t := Drowsy(n, 0, 0).(normal := 1, tokens := 1);
    r := Submitted(n);
    r := ToRing(r, t, 0);
    r := IdleStep(r, t, 0, Scan2);
    r := IdleStep(r, t, 0, Scan3);
  }

  /** It takes the coroutine and runs it. */
  lemma CoroutineRuns(n: nat) returns (r: seq<State>)
    requires n > 0
    ensures IsRun(Init, Next, r) && |r[0].workers| == n
    ensures r[|r| - 1] == At(Drowsy(n, 0, 0).(tokens := 1), 0, Running)
  {
    r := LanesReached(n);
    var t := Drowsy(n, 0, 0).(tokens := 1);
    assert t.workers[0 := Scan4][0 := Commit] == t.workers[0 := Commit];
    r := Took(r, Go(0, 0, 0), At(t, 0, Commit));
    assert t.workers[0 := Commit][0 := Running] == t.workers[0 := Running];
    r := Took(r, Go(0, 1, 0), At(t, 0, Running));
  }

  /** The coroutine sleeps; its worker finds nothing else and uses up the token of the submission. */
  lemma CoroutineSleeps(n: nat) returns (r: seq<State>)
    requires n > 0
    ensures IsRun(Init, Next, r) && |r[0].workers| == n && r[|r| - 1] == Drowsy(n, 0, 1)
  {
    r := CoroutineRuns(n);
    var t := Drowsy(n, 0, 1);
    assert t.workers[0 := Running][0 := Top] == t.workers && t.workers[0 := Top] == t.workers;
    r := Took(r, Go(0, 2, 0), t.(tokens := 1));
    assert At(t.(tokens := 1), 0, Top) == t.(tokens := 1);
    r := IdlePass(r, t.(tokens := 1), 0);
    assert t.workers[0 := Blocked][0 := Top] == t.workers;
    r := Took(r, Go(0, 0, 0), t);
  }

  lemma {:induction false} FallAsleep(n: nat, j: nat) returns (r: seq<State>)
    requires j <= n && n > 0
    ensures IsRun(Init, Next, r) && |r[0].workers| == n && r[|r| - 1] == Drowsy(n, j, 1)
  {
    if j == 0 {
      r := CoroutineSleeps(n);
    } else {
      r := FallAsleep(n, j - 1);
      var s := Drowsy(n, j - 1, 1);
      assert s.workers[j - 1 := Top] == s.workers;
      r := IdlePass(r, s, j - 1);
      assert s.workers[j - 1 := Blocked] == Drowsy(n, j, 1).workers;
    }
  }

  /** All sleep; the timer thread readies the coroutine of worker 0 and posts; worker 1 takes the token. */
  lemma TokenTaken(n: nat) returns (r: seq<State>)
    requires n >= 2
    ensures IsRun(Init, Next, r) && |r[0].workers| == n
    ensures r[|r| - 1] == At(Drowsy(n, n, 0).(fifos := seq(n, _ => 0)[0 := 1]), 1, Top)
  {
    r := FallAsleep(n, n);
    var s := Drowsy(n, n, 0).(fifos := seq(n, _ => 0)[0 := 1]);
    assert Drowsy(n, n, 1).timers[0 := 0] == s.timers;
    r := Took(r, Ready(0), s.(pushers := 1));
    r := Took(r, PostReady, s.(tokens := 1));
    r := Took(r, Go(1, 0, 0), At(s, 1, Top));
  }

  /** Worker 1 finds nothing and sleeps again. */
  lemma SecondWorkerStrands(n: nat) returns (r: seq<State>)
    requires n >= 2
    ensures Strands(n, r)
  {
    r := TokenTaken(n);
    var s := Drowsy(n, n, 0).(fifos := seq(n, _ => 0)[0 := 1]);
    r := IdlePass(r, s, 1);
    assert s.workers[1 := Blocked] == s.workers;
    assert s.fifos[0] == 1;
  }

  /** Ready coroutines can be stranded behind sleeping workers exactly in pools of two workers or more. */
  lemma StrandsIffShared(n: nat)
    ensures (exists r :: Strands(n, r)) <==> n >= 2
  {
    if n >= 2 {
      var r := SecondWorkerStrands(n);
    }
    forall r | Strands(n, r) ensures n >= 2 { OneWorkerNeverStrands(n, r); }
  }
}
