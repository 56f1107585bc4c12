/** The pool of `Pool` together with the table of `CancelIndex` that its submitters, workers and cancellers
    edit: the table always holds exactly the indexed tasks and, with the capacity `Sizing` gives it, never fills
    up.  The pool is not resized. */
module PoolIndex {
  import opened Collections
  import opened Runs
  import CancelIndex
  import Pool
  import Sizing

  datatype State = State(pool: Pool.State, table: CancelIndex.Table)

  /** Task ids start at 2. */
  function IdOf(t: nat): nat
  {
    t + 2
  }

  /** The address of the task's node; not NULL. */
  function Address(t: nat): nat
  {
    t + 1
  }

  /** What a step of the pool does to the table: a submitter that has claimed its ring position inserts its task, a
      canceller claims the entry of an indexed task, a worker at the run boundary removes that of a ring task. */
  ghost predicate TableStep(s: Pool.State, a: Pool.Step, t: CancelIndex.Table, t': CancelIndex.Table)
    requires Pool.Enabled(s, a)
  {
    match a
    case Act(i, _) =>
      if s.submitters[i].Claimed? then
        CancelIndex.Stores(t, t', IdOf(s.submitters[i].t), Address(s.submitters[i].t))
      else t' == t
    case Cancel(u) =>
      if s.tasks[u].indexed && !s.tasks[u].cancelled then CancelIndex.Drops(t, t', IdOf(u), false) else t' == t
    case Go(w, _) =>
      if s.workers[w].Commit? && s.tasks[s.workers[w].t].viaRing then
        CancelIndex.Drops(t, t', IdOf(s.workers[w].t), true)
      else t' == t
    case _ => t' == t
  }

  /** The slots that creation asks for. */
  function Need(s: Pool.State): nat
  {
    s.ringSize + |s.workers| * DEQUE_CAPACITY
  }

  ghost predicate Init(p: State)
  {
    Pool.Init(p.pool) && CancelIndex.Fresh(p.table) && |p.table.slots| >= Need(p.pool)
  }

  ghost predicate Next(p: State, p': State)
  {
    exists a :: Pool.Enabled(p.pool, a) && p'.pool == Pool.Do(p.pool, a) && TableStep(p.pool, a, p.table, p'.table)
  }

  // ---------------------------------------------------------------- what a pool step does to the flags

  /** The flag after the step. */
  ghost predicate FlagAfter(s: Pool.State, a: Pool.Step, t: nat)
    requires Pool.Enabled(s, a) && t < |s.tasks|
  {
    match a
    case Act(i, _) => s.tasks[t].indexed || (s.submitters[i].Claimed? && s.submitters[i].t == t)
    case Cancel(u) => s.tasks[t].indexed && !(u == t && !s.tasks[t].cancelled)
    case Go(w, _) => s.tasks[t].indexed && !(s.workers[w].Commit? && s.workers[w].t == t)
    case _ => s.tasks[t].indexed
  }

  lemma FlagsByAct(s: Pool.State, i: nat, ok: bool, t: nat)
    requires Pool.Enabled(s, Pool.Act(i, ok)) && t < |s.tasks|
    ensures Pool.ActStep(s, i, ok).tasks[t].indexed <==> FlagAfter(s, Pool.Act(i, ok), t)
  {
    match s.submitters[i]
    case Created(_) =>
    case Counted(_) =>
    case Claimed(_, _) =>
    case Refused(_) =>
    case Spilling(_) =>
    case _ =>
  }

  lemma FlagsByGo(s: Pool.State, w: nat, pick: nat, t: nat)
    requires Pool.Enabled(s, Pool.Go(w, pick)) && t < |s.tasks|
    ensures Pool.GoStep(s, w, pick).tasks[t].indexed <==> FlagAfter(s, Pool.Go(w, pick), t)
  {
    match s.workers[w]
    case Scan0 =>
    case Scan1 =>
    case Scan2(_) =>
    case Scan3 =>
    case Scan4 =>
    case Commit(_) =>
    case _ =>
  }

  lemma FlagsKept(s: Pool.State, a: Pool.Step, t: nat)
    requires Pool.Enabled(s, a)
    ensures |s.tasks| <= |Pool.Do(s, a).tasks| && Need(Pool.Do(s, a)) == Need(s)
    ensures t < |s.tasks| ==> (Pool.Do(s, a).tasks[t].indexed <==> FlagAfter(s, a, t))
    ensures |s.tasks| <= t < |Pool.Do(s, a).tasks| ==> !Pool.Do(s, a).tasks[t].indexed
  {
    if t < |s.tasks| {
      if a.Act? { FlagsByAct(s, a.i, a.ok, t); }
      if a.Go? { FlagsByGo(s, a.w, a.pick, t); }
    }
  }

  // ---------------------------------------------------------------- invariant

  ghost predicate Mirrored(s: Pool.State, m: map<nat, nat>, t: nat)
    requires t < |s.tasks|
  {
    (IdOf(t) in m <==> s.tasks[t].indexed) && (s.tasks[t].indexed ==> m[IdOf(t)] == Address(t))
  }

  /** The map holds exactly the indexed tasks. */
  ghost predicate Mirrors(s: Pool.State, m: map<nat, nat>)
  {
    && (forall t {:trigger Mirrored(s, m, t)} :: 0 <= t < |s.tasks| ==> Mirrored(s, m, t))
    && (forall id :: id in m ==> 2 <= id < |s.tasks| + 2)
  }

  ghost predicate Inv(p: State)
  {
    && Pool.Inv(p.pool) && CancelIndex.Sound(p.table) && |p.table.slots| >= Need(p.pool)
    && Mirrors(p.pool, CancelIndex.MapOf(p.table))
  }

  lemma Room(p: State)
    requires Inv(p)
    ensures |p.table.at| < |p.table.slots|
  {
    var at := map id | id in p.table.at :: id - 2;
    assert at.Keys == p.table.at.Keys;
    forall id | id in at ensures at[id] in Pool.IndexedTasks(p.pool) {
      assert Mirrored(p.pool, CancelIndex.MapOf(p.table), id - 2);
    }
    CancelIndex.InjectionSize(at, Pool.IndexedTasks(p.pool));
    Pool.FewIndexed(p.pool);
  }

  /** The map after a step. */
  ghost predicate MapStep(s: Pool.State, a: Pool.Step, m: map<nat, nat>, m': map<nat, nat>)
    requires Pool.Enabled(s, a)
  {
    match a
    case Act(i, _) =>
      m' == if s.submitters[i].Claimed? then m[IdOf(s.submitters[i].t) := Address(s.submitters[i].t)] else m
    case Cancel(u) => m' == if s.tasks[u].indexed && !s.tasks[u].cancelled then m - {IdOf(u)} else m
    case Go(w, _) =>
      m' == if s.workers[w].Commit? && s.tasks[s.workers[w].t].viaRing then m - {IdOf(s.workers[w].t)} else m
    case _ => m' == m
  }

  /** An unflagged task of the lanes has no entry to remove. */
  lemma OnlyRingIndexed(s: Pool.State, t: nat)
    requires Pool.Inv(s) && t < |s.tasks|
    ensures s.tasks[t].indexed ==> s.tasks[t].viaRing
  {
    assert Pool.TaskOk(s, t);
  }

  lemma MirrorOne(s: Pool.State, a: Pool.Step, m: map<nat, nat>, m': map<nat, nat>, t: nat)
    requires Pool.Inv(s) && Mirrors(s, m) && Pool.Enabled(s, a) && MapStep(s, a, m, m') && t < |Pool.Do(s, a).tasks|
    ensures Mirrored(Pool.Do(s, a), m', t)
  {
    FlagsKept(s, a, t);
    if t < |s.tasks| {
      assert Mirrored(s, m, t);
      OnlyRingIndexed(s, t);
    } else {
      assert IdOf(t) !in m;
    }
  }

  lemma MirrorsStep(s: Pool.State, a: Pool.Step, m: map<nat, nat>, m': map<nat, nat>)
    requires Pool.Inv(s) && Mirrors(s, m) && Pool.Enabled(s, a) && MapStep(s, a, m, m')
    ensures Mirrors(Pool.Do(s, a), m')
  {
    FlagsKept(s, a, 0);
    forall t: nat | t < |Pool.Do(s, a).tasks| ensures Mirrored(Pool.Do(s, a), m', t) { MirrorOne(s, a, m, m', t); }
  }

  /** The table edits are those of the map: in particular an insertion never falls through. */
  lemma TableFollows(p: State, a: Pool.Step, t': CancelIndex.Table)
    requires Inv(p) && Pool.Enabled(p.pool, a) && TableStep(p.pool, a, p.table, t')
    ensures CancelIndex.Sound(t') && |t'.slots| == |p.table.slots|
    ensures MapStep(p.pool, a, CancelIndex.MapOf(p.table), CancelIndex.MapOf(t'))
  {
    var s := p.pool;
    match a
    case Act(i, _) =>
      if s.submitters[i].Claimed? {
        NotYetIndexed(p, i);
        Room(p);
        CancelIndex.StoresMap(p.table, t', IdOf(s.submitters[i].t), Address(s.submitters[i].t));
      }
    case Cancel(u) =>
      if s.tasks[u].indexed && !s.tasks[u].cancelled { CancelIndex.DropsMap(p.table, t', IdOf(u), false); }
    case Go(w, _) =>
      if s.workers[w].Commit? && s.tasks[s.workers[w].t].viaRing {
        CancelIndex.DropsMap(p.table, t', IdOf(s.workers[w].t), true);
      }
    case _ =>
  }

  lemma NotYetIndexed(p: State, i: nat)
    requires Inv(p) && i < |p.pool.submitters| && p.pool.submitters[i].Claimed?
    ensures IdOf(p.pool.submitters[i].t) !in p.table.at
  {
    var s := p.pool;
    var t, pos := s.submitters[i].t, s.submitters[i].p;
    assert Pool.SubmitterOk(s, i) && Pool.CellOk(s, pos) && Pool.TaskOk(s, t);
    assert Mirrored(s, CancelIndex.MapOf(p.table), t);
  }

  /** Every step keeps the table and the pool together. */
  lemma InvStep(p: State, p': State)
    requires Inv(p) && Next(p, p')
    ensures Inv(p')
  {
    var a :| Pool.Enabled(p.pool, a) && p'.pool == Pool.Do(p.pool, a) && TableStep(p.pool, a, p.table, p'.table);
    assert Pool.Next(p.pool, p'.pool);
    Pool.InvStep(p.pool, p'.pool);
    TableFollows(p, a, p'.table);
    MirrorsStep(p.pool, a, CancelIndex.MapOf(p.table), CancelIndex.MapOf(p'.table));
    FlagsKept(p.pool, a, 0);
  }

  lemma InvAt(r: seq<State>, k: nat)
    requires IsRun(Init, Next, r) && k < |r|
    ensures Inv(r[k])
  {
    forall p | Init(p) ensures Inv(p) {
      Pool.InitInv(p.pool);
      CancelIndex.FreshSound(p.table);
    }
    forall p, p' | Inv(p) && Next(p, p') ensures Inv(p') { InvStep(p, p'); }
    RunKeeps(Init, Next, Inv, r);
  }

  // ---------------------------------------------------------------- theorems

  /** In every reachable state a lookup by id answers what the pool's flag says: `cancel_by_id` finds a task exactly
      while it is indexed. */
  lemma LookupFindsIndexed(r: seq<State>, k: nat, t: nat)
    requires IsRun(Init, Next, r) && k < |r| && t < |r[k].pool.tasks|
    ensures |r[k].table.slots| > 0
    ensures CancelIndex.Lookup(r[k].table.slots, CancelIndex.Key(IdOf(t)), 0) ==
              if r[k].pool.tasks[t].indexed then Address(t) else CancelIndex.NULL
  {
    InvAt(r, k);
    assert Mirrored(r[k].pool, CancelIndex.MapOf(r[k].table), t);
    CancelIndex.LookupFrom(r[k].table.slots, r[k].table.at, IdOf(t), 0);
  }

  /** In every reachable state there is a reusable slot. */
  lemma InsertionFindsSlot(r: seq<State>, k: nat)
    requires IsRun(Init, Next, r) && k < |r|
    ensures exists i :: 0 <= i < |r[k].table.slots| && r[k].table.slots[i].key <= CancelIndex.TOMBSTONE
  {
    InvAt(r, k);
    Room(r[k]);
    CancelIndex.FullIffNoFreeSlot(r[k].table.slots, r[k].table.at);
  }

  /** The index a pool is created with. */
  method NewIndex(ringSize: nat, workers: nat) returns (index: CancelIndex.Index)
    ensures fresh(index) && fresh(index.slots) && index.Valid() && index.Tasks() == map[]
    ensures index.slots.Length >= ringSize + workers * DEQUE_CAPACITY && CancelIndex.Fresh(index.Now())
  {
    var cap := Sizing.CancelCapacity(ringSize, workers);
    index := new CancelIndex.Index(cap);
  }

  lemma InsertedNext(p: State, i: nat, t': CancelIndex.Table)
    requires Pool.Enabled(p.pool, Pool.Act(i, true)) && p.pool.submitters[i].Claimed?
    requires CancelIndex.Stores(p.table, t', IdOf(p.pool.submitters[i].t), Address(p.pool.submitters[i].t))
    ensures Next(p, State(Pool.Do(p.pool, Pool.Act(i, true)), t'))
  {
    assert TableStep(p.pool, Pool.Act(i, true), p.table, t');
  }

  /** The insertion of a ring submission: afterwards the task is indexed, and the table is that of the next
      state. */
  method IndexTask(index: CancelIndex.Index, t: nat, ghost r: seq<State>, ghost k: nat, ghost i: nat)
    requires IsRun(Init, Next, r) && k < |r| && index.Valid() && index.Now() == r[k].table
    requires Pool.Enabled(r[k].pool, Pool.Act(i, true)) && r[k].pool.submitters[i].Claimed?
    requires r[k].pool.submitters[i].t == t
    modifies index, index.slots
    ensures index.Valid() && index.Tasks() == old(index.Tasks())[IdOf(t) := Address(t)]
    ensures Next(r[k], State(Pool.Do(r[k].pool, Pool.Act(i, true)), index.Now()))
  {
    InvAt(r, k);
    NotYetIndexed(r[k], i);
    Room(r[k]);
    index.Insert(IdOf(t), Address(t));
    InsertedNext(r[k], i, index.Now());
  }
}
