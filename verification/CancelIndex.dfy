/** The cancel index: an open-addressing table from task ids to queued tasks, probed linearly, in which
    removed entries leave tombstones.  Operations are taken as atomic. */
module CancelIndex {
  import opened Collections
  import opened Runs

  const EMPTY: nat := 0
  const TOMBSTONE: nat := 1
  const NULL: nat := 0

  /** `key` is EMPTY, TOMBSTONE or the id plus one; `task` is the task's address. */
  datatype Slot = Slot(key: nat, task: nat)

  function Key(id: nat): nat
  {
    id + 1
  }

  /** `want & (cap - 1)` for a power of two. */
  function Home(key: nat, cap: nat): (h: nat)
    requires cap > 0
    ensures h < cap
  {
    key % cap
  }

  /** The d-th slot of the probe sequence that starts at h. */
  function Probe(h: nat, d: nat, cap: nat): (i: nat)
    requires h < cap && d < cap
    ensures i < cap
  {
    if h + d < cap then h + d else h + d - cap
  }

  function Distance(h: nat, i: nat, cap: nat): (d: nat)
    requires h < cap && i < cap
    ensures d < cap && Probe(h, d, cap) == i
    ensures forall e :: 0 <= e < cap && Probe(h, e, cap) == i ==> e == d
  {
    if h <= i then i - h else i - h + cap
  }

  /** No EMPTY slot on the way to the entry in slot i. */
  ghost predicate NoHole(s: seq<Slot>, i: nat)
    requires i < |s|
  {
    var h := Home(s[i].key, |s|);
    forall d :: 0 <= d < Distance(h, i, |s|) ==> s[Probe(h, d, |s|)].key != EMPTY
  }

  ghost predicate Within(s: seq<Slot>, at: map<nat, nat>)
  {
    forall id :: id in at ==> at[id] < |s|
  }

  ghost predicate IdPlaced(s: seq<Slot>, at: map<nat, nat>, id: nat)
    requires Within(s, at) && id in at
  {
    id > 0 && s[at[id]].key == Key(id)
  }

  ghost predicate SlotKnown(s: seq<Slot>, at: map<nat, nat>, i: nat)
    requires i < |s|
  {
    s[i].key > TOMBSTONE ==> s[i].key - 1 in at && at[s[i].key - 1] == i && NoHole(s, i)
  }

  /** `at` gives the slot of every indexed id. */
  ghost predicate Placed(s: seq<Slot>, at: map<nat, nat>)
  {
    && Within(s, at)
    && (forall id {:trigger IdPlaced(s, at, id)} :: id in at ==> IdPlaced(s, at, id))
    && (forall i {:trigger SlotKnown(s, at, i)} :: 0 <= i < |s| ==> SlotKnown(s, at, i))
  }

  /** The map a table stands for. */
  ghost function TasksOf(s: seq<Slot>, at: map<nat, nat>): (m: map<nat, nat>)
    requires Within(s, at)
    ensures m.Keys == at.Keys && |m| == |at|
  {
    var m := map id | id in at :: s[at[id]].task;
    assert m.Keys == at.Keys;
    m
  }

  /** Nothing under the key in the first d probes, and no EMPTY slot among them. */
  ghost predicate Passed(s: seq<Slot>, key: nat, d: nat)
    requires |s| > 0 && d <= |s|
  {
    forall e :: 0 <= e < d ==>
      s[Probe(Home(key, |s|), e, |s|)].key != key && s[Probe(Home(key, |s|), e, |s|)].key != EMPTY
  }

  /** Stopping at an EMPTY slot, or after a whole round, is conclusive. */
  lemma AbsentAfterProbe(s: seq<Slot>, at: map<nat, nat>, id: nat, d: nat)
    requires |s| > 0 && d <= |s| && Placed(s, at) && Passed(s, Key(id), d)
    requires d == |s| || s[Probe(Home(Key(id), |s|), d, |s|)].key == EMPTY
    ensures id !in at
  {
    if id in at {
      var i := at[id];
      assert IdPlaced(s, at, id) && SlotKnown(s, at, i);
      var e := Distance(Home(Key(id), |s|), i, |s|);
    }
  }

  /** `(h + 1) & (cap - 1)` */
  function NextSlot(h: nat, cap: nat): (h': nat)
    requires h < cap
    ensures h' < cap
  {
    if h + 1 == cap then 0 else h + 1
  }

  lemma OccupyPlaced(s: seq<Slot>, at: map<nat, nat>, id: nat, d: nat, task: nat)
    requires |s| > 0 && d < |s| && Placed(s, at) && id > 0 && id !in at
    requires var h := Home(Key(id), |s|);
             && s[Probe(h, d, |s|)].key <= TOMBSTONE
             && forall e :: 0 <= e < d ==> s[Probe(h, e, |s|)].key > TOMBSTONE
    ensures var i := Probe(Home(Key(id), |s|), d, |s|);
            Placed(s[i := Slot(Key(id), task)], at[id := i])
  {
    var i := Probe(Home(Key(id), |s|), d, |s|);
    var s', at' := s[i := Slot(Key(id), task)], at[id := i];
    forall x | x in at' ensures IdPlaced(s', at', x) {
      if x != id { assert IdPlaced(s, at, x); }
    }
    forall j | 0 <= j < |s| ensures SlotKnown(s', at', j) {
      assert SlotKnown(s, at, j);
    }
  }

  lemma OccupyTasks(s: seq<Slot>, at: map<nat, nat>, id: nat, i: nat, task: nat)
    requires Placed(s, at) && id !in at && i < |s| && s[i].key <= TOMBSTONE
    ensures TasksOf(s[i := Slot(Key(id), task)], at[id := i]) == TasksOf(s, at)[id := task]
  {
    forall x | x in at ensures at[x] != i { assert IdPlaced(s, at, x); }
  }

  lemma TombstonePlaced(s: seq<Slot>, at: map<nat, nat>, id: nat, task: nat)
    requires Placed(s, at) && id in at
    ensures Placed(s[at[id] := Slot(TOMBSTONE, task)], at - {id})
  {
    var i := at[id];
    var s', at' := s[i := Slot(TOMBSTONE, task)], at - {id};
    assert IdPlaced(s, at, id);
    forall x | x in at' ensures IdPlaced(s', at', x) { assert IdPlaced(s, at, x); }
    forall j | 0 <= j < |s| ensures SlotKnown(s', at', j) { assert SlotKnown(s, at, j); }
  }

  lemma TombstoneTasks(s: seq<Slot>, at: map<nat, nat>, id: nat, task: nat)
    requires Placed(s, at) && id in at
    ensures TasksOf(s[at[id] := Slot(TOMBSTONE, task)], at - {id}) == TasksOf(s, at) - {id}
  {
    assert IdPlaced(s, at, id);
    forall x | x in at && x != id ensures at[x] != at[id] { assert IdPlaced(s, at, x); }
  }

  lemma {:induction false} InjectionSize(at: map<nat, nat>, slots: set<nat>)
    requires forall id :: id in at ==> at[id] in slots
    requires forall id, id' :: id in at && id' in at && at[id] == at[id'] ==> id == id'
    ensures |at| <= |slots|
    ensures (forall i :: i in slots ==> exists id :: id in at && at[id] == i) ==> |at| == |slots|
  {
    if at.Keys == {} {
      if i :| i in slots { assert |at| <= |slots|; }
    } else {
      var x :| x in at;
      var at', slots' := at - {x}, slots - {at[x]};
      assert at'.Keys == at.Keys - {x};
      InjectionSize(at', slots');
      if forall i :: i in slots ==> exists id :: id in at && at[id] == i {
        forall i | i in slots' ensures exists id :: id in at' && at'[id] == i {
          var id :| id in at && at[id] == i;
          assert id in at';
        }
      }
    }
  }

  function Below(n: nat): (r: set<nat>)
    ensures |r| == n && forall i :: i in r <==> 0 <= i < n
  {
    if n == 0 then {} else Below(n - 1) + {n - 1}
  }

  /** The index holds as many ids as it has slots exactly when no slot is reusable. */
  lemma FullIffNoFreeSlot(s: seq<Slot>, at: map<nat, nat>)
    requires Placed(s, at)
    ensures |at| <= |s|
    ensures |at| < |s| <==> exists i :: 0 <= i < |s| && s[i].key <= TOMBSTONE
  {
    forall x, y | x in at && y in at && at[x] == at[y] ensures x == y {
      assert IdPlaced(s, at, x) && IdPlaced(s, at, y);
    }
    if i :| 0 <= i < |s| && s[i].key <= TOMBSTONE {
      forall x | x in at ensures at[x] in Below(|s|) - {i} { assert IdPlaced(s, at, x); }
      assert i in Below(|s|);
      InjectionSize(at, Below(|s|) - {i});
    } else {
      forall i | i in Below(|s|) ensures exists id :: id in at && at[id] == i {
        assert SlotKnown(s, at, i);
        assert at[s[i].key - 1] == i;
      }
      InjectionSize(at, Below(|s|));
    }
  }

  lemma RoundIsEverywhere(s: seq<Slot>, h: nat)
    requires h < |s| && forall e :: 0 <= e < |s| ==> s[Probe(h, e, |s|)].key > TOMBSTONE
    ensures forall i :: 0 <= i < |s| ==> s[i].key > TOMBSTONE
  {
    forall i | 0 <= i < |s| ensures s[i].key > TOMBSTONE {
      assert Probe(h, Distance(h, i, |s|), |s|) == i;
    }
  }

  /** What `cancel_index_find` answers for a key, probing from distance d on. */
  function Lookup(s: seq<Slot>, key: nat, d: nat): nat
    requires |s| > 0 && d <= |s|
    decreases |s| - d
  {
    if d == |s| then NULL
    else
      var slot := s[Probe(Home(key, |s|), d, |s|)];
      if slot.key == key then slot.task else if slot.key == EMPTY then NULL else Lookup(s, key, d + 1)
  }

  ghost predicate AnswersAsMap(s: seq<Slot>, at: map<nat, nat>, id: nat)
    requires |s| > 0 && Placed(s, at)
  {
    Lookup(s, Key(id), 0) == if id in at then s[at[id]].task else NULL
  }

  lemma {:induction false} LookupFrom(s: seq<Slot>, at: map<nat, nat>, id: nat, d: nat)
    requires |s| > 0 && d <= |s| && Placed(s, at) && id > 0 && Passed(s, Key(id), d)
    ensures Lookup(s, Key(id), d) == if id in at then s[at[id]].task else NULL
    decreases |s| - d
  {
    if d == |s| || s[Probe(Home(Key(id), |s|), d, |s|)].key == EMPTY {
      AbsentAfterProbe(s, at, id, d);
    } else if s[Probe(Home(Key(id), |s|), d, |s|)].key != Key(id) {
      LookupFrom(s, at, id, d + 1);
    } else {
      assert SlotKnown(s, at, Probe(Home(Key(id), |s|), d, |s|));
    }
  }

  // ---------------------------------------------------------------- tables that arise

  /** The table as a value: its slots and where each indexed id sits. */
  datatype Table = Table(slots: seq<Slot>, at: map<nat, nat>)

  ghost predicate Fresh(t: Table)
  {
    |t.slots| > 0 && t.at == map[] && forall i :: 0 <= i < |t.slots| ==> t.slots[i] == Slot(EMPTY, NULL)
  }

  /** `d` leads to the first reusable slot of the probe sequence of `id`. */
  ghost predicate FirstFree(s: seq<Slot>, id: nat, d: nat)
  {
    && d < |s|
    && s[Probe(Home(Key(id), |s|), d, |s|)].key <= TOMBSTONE
    && forall e :: 0 <= e < d ==> s[Probe(Home(Key(id), |s|), e, |s|)].key > TOMBSTONE
  }

  ghost predicate Inserts(t: Table, t': Table, id: nat, task: nat, d: nat)
  {
    && id > 0 && id !in t.at && FirstFree(t.slots, id, d)
    && var h := Probe(Home(Key(id), |t.slots|), d, |t.slots|);
       t' == Table(t.slots[h := Slot(Key(id), task)], t.at[id := h])
  }

  /** A tombstone replaces the entry; a worker's removal leaves the task's address, a canceller's claim does not. */
  ghost predicate Buries(t: Table, t': Table, id: nat, keeps: bool)
  {
    && id in t.at && t.at[id] < |t.slots|
    && var task := if keeps then t.slots[t.at[id]].task else NULL;
       t' == Table(t.slots[t.at[id] := Slot(TOMBSTONE, task)], t.at - {id})
  }

  /** `cancel_index_insert` of an id that is not indexed: falls through exactly when no slot is reusable. */
  ghost predicate Stores(t: Table, t': Table, id: nat, task: nat)
  {
    || (exists d :: Inserts(t, t', id, task, d))
    || (t' == t && forall i :: 0 <= i < |t.slots| ==> t.slots[i].key > TOMBSTONE)
  }

  /** `cancel_index_remove` (keeps) and `cancel_index_claim`. */
  ghost predicate Drops(t: Table, t': Table, id: nat, keeps: bool)
  {
    Buries(t, t', id, keeps) || (t' == t && id !in t.at)
  }

  ghost predicate Edits(t: Table, t': Table)
  {
    (exists id, task, d :: Inserts(t, t', id, task, d)) || (exists id, keeps :: Buries(t, t', id, keeps))
  }

  ghost predicate Sound(t: Table)
  {
    |t.slots| > 0 && Placed(t.slots, t.at)
  }

  /** The map a sound table stands for. */
  ghost function MapOf(t: Table): (m: map<nat, nat>)
    requires Sound(t)
    ensures m.Keys == t.at.Keys
  {
    TasksOf(t.slots, t.at)
  }

  lemma StoresMap(t: Table, t': Table, id: nat, task: nat)
    requires Sound(t) && id > 0 && id !in t.at && |t.at| < |t.slots| && Stores(t, t', id, task)
    ensures Sound(t') && |t'.slots| == |t.slots| && MapOf(t') == MapOf(t)[id := task]
  {
    FullIffNoFreeSlot(t.slots, t.at);
    var d :| Inserts(t, t', id, task, d);
    OccupyPlaced(t.slots, t.at, id, d, task);
    OccupyTasks(t.slots, t.at, id, Probe(Home(Key(id), |t.slots|), d, |t.slots|), task);
  }

  lemma DropsMap(t: Table, t': Table, id: nat, keeps: bool)
    requires Sound(t) && Drops(t, t', id, keeps)
    ensures Sound(t') && |t'.slots| == |t.slots| && MapOf(t') == MapOf(t) - {id}
  {
    if id in t.at {
      var task := if keeps then t.slots[t.at[id]].task else NULL;
      assert t' == Table(t.slots[t.at[id] := Slot(TOMBSTONE, task)], t.at - {id});
      TombstonePlaced(t.slots, t.at, id, task);
      TombstoneTasks(t.slots, t.at, id, task);
    } else {
      assert MapOf(t) - {id} == MapOf(t);
    }
  }

  lemma EditSound(t: Table, t': Table)
    requires Sound(t) && Edits(t, t')
    ensures Sound(t')
  {
    if id, task, d :| Inserts(t, t', id, task, d) {
      OccupyPlaced(t.slots, t.at, id, d, task);
    } else {
      var id, keeps :| Buries(t, t', id, keeps);
      TombstonePlaced(t.slots, t.at, id, if keeps then t.slots[t.at[id]].task else NULL);
    }
  }

  lemma FreshSound(t: Table)
    requires Fresh(t)
    ensures Sound(t) && MapOf(t) == map[]
  {
    forall i | 0 <= i < |t.slots| ensures SlotKnown(t.slots, t.at, i) {}
  }

  lemma TablesSound(r: seq<Table>)
    requires IsRun(Fresh, Edits, r)
    ensures Sound(r[|r| - 1])
  {
    forall t | Fresh(t) ensures Sound(t) { FreshSound(t); }
    forall t, t' | Sound(t) && Edits(t, t') ensures Sound(t') { EditSound(t, t'); }
    RunKeeps(Fresh, Edits, Sound, r);
  }

  ghost predicate Answers(t: Table, id: nat)
  {
    |t.slots| > 0 && Placed(t.slots, t.at) && AnswersAsMap(t.slots, t.at, id)
  }

  lemma SameHome(q: nat, cap: nat)
    requires cap > 0
    ensures Home(Key(q * cap), cap) == Home(Key(0), cap)
  {
    if cap == 1 {
      RemainderUnique(1, Key(q * cap), Key(q * cap), 0);
    } else {
      RemainderUnique(cap, Key(q * cap), q, 1);
    }
  }

  /** A slot whose entry was removed keeps the task's address, and the key of id 0 is the tombstone mark: for every
      capacity, after one insertion and one removal of a multiple of it, id 0 finds the task although nothing is
      indexed. */
  lemma ZeroFindsLeftover(cap: nat, q: nat, task: nat) returns (r: seq<Table>)
    requires cap > 0 && q > 0 && task != NULL
    ensures IsRun(Fresh, Edits, r) && |r[0].slots| == cap && r[|r| - 1].at == map[]
    ensures |r[|r| - 1].slots| == cap && Lookup(r[|r| - 1].slots, Key(0), 0) == task
    ensures !Answers(r[|r| - 1], 0)
  {
    var id, h := q * cap, Home(Key(0), cap);
    SameHome(q, cap);
    var t0 := Table(seq(cap, _ => Slot(EMPTY, NULL)), map[]);
    var t1 := Table(t0.slots[h := Slot(Key(id), task)], map[id := h]);
    var t2 := Table(t0.slots[h := Slot(TOMBSTONE, task)], map[]);
    assert Inserts(t0, t1, id, task, 0);
    assert t1.slots[h := Slot(TOMBSTONE, task)] == t2.slots && t1.at - {id} == map[] && Buries(t1, t2, id, true);
    Extended(Fresh, Edits, [t0], t1);
    Extended(Fresh, Edits, [t0] + [t1], t2);
    r := [t0] + [t1] + [t2];
    assert Probe(h, 0, cap) == h;
  }

  /** For every capacity, lookup by id agrees with the map in every table that arises exactly when the id is not
      0. */
  lemma AnswersAsMapIff(cap: nat, id: nat)
    requires cap > 0
    ensures id > 0 <==>
            forall r: seq<Table> :: IsRun(Fresh, Edits, r) && |r[0].slots| == cap ==> Answers(r[|r| - 1], id)
  {
    if id > 0 {
      forall r: seq<Table> | IsRun(Fresh, Edits, r) && |r[0].slots| == cap ensures Answers(r[|r| - 1], id) {
        TablesSound(r);
        LookupFrom(r[|r| - 1].slots, r[|r| - 1].at, id, 0);
      }
    } else {
      var r := ZeroFindsLeftover(cap, 1, 9);
    }
  }

  class Index {
    /** Empty when the pool has no index (lane-only pool). */
    const slots: array<Slot>
    ghost var at: map<nat, nat>

    ghost predicate Valid()
      reads this, slots
    {
      Placed(slots[..], at)
    }

    /** What the index stands for: the queued tasks by id. */
    ghost function Tasks(): (m: map<nat, nat>)
      requires Valid()
      reads this, slots
      ensures m.Keys == at.Keys
    {
      TasksOf(slots[..], at)
    }

    ghost function Now(): Table
      reads this, slots
    {
      Table(slots[..], at)
    }

    constructor (cap: nat)
      ensures Valid() && fresh(slots) && slots.Length == cap && Tasks() == map[]
      ensures cap > 0 ==> Fresh(Now())
    {
      slots := new Slot[cap](_ => Slot(EMPTY, NULL));
      at := map[];
    }

    /** The bounded probe shared by find, remove and claim. */
    method Seek(want: nat) returns (found: bool, h: nat, ghost d: nat)
      requires slots.Length > 0
      ensures found ==> h < slots.Length && slots[h].key == want
      ensures Lookup(slots[..], want, 0) == if found then slots[h].task else NULL
      ensures !found ==> d <= slots.Length && Passed(slots[..], want, d)
      ensures !found ==> d == slots.Length || slots[Probe(Home(want, slots.Length), d, slots.Length)].key == EMPTY
    {
      var cap := slots.Length;
      h := Home(want, cap);
      for i := 0 to cap
        invariant h == Probe(Home(want, cap), if i < cap then i else 0, cap)
        invariant Passed(slots[..], want, i)
        invariant Lookup(slots[..], want, 0) == Lookup(slots[..], want, i)
      {
        var cur := slots[h].key;
        if cur == want { return true, h, i; }
        if cur == EMPTY { return false, h, i; }
        h := NextSlot(h, cap);
      }
      found, d := false, cap;
    }

    /** `cancel_index_find`: for every id but 0 it agrees with the map, also when no EMPTY slot is left. */
    method Find(id: nat) returns (task: nat)
      requires Valid()
      ensures slots.Length == 0 ==> task == NULL
      ensures slots.Length > 0 ==> task == Lookup(slots[..], Key(id), 0)
      ensures id > 0 ==> task == if id in Tasks() then Tasks()[id] else NULL
    {
      if slots.Length == 0 { return NULL; }
      var found, h, d := Seek(Key(id));
      if id > 0 { LookupFrom(slots[..], at, id, 0); }
      task := if found then slots[h].task else NULL;
    }

    method SeekFree(want: nat) returns (found: bool, h: nat, ghost d: nat)
      requires slots.Length > 0
      ensures found ==>
                d < slots.Length && h == Probe(Home(want, slots.Length), d, slots.Length) && slots[h].key <= TOMBSTONE
      ensures found ==> forall e :: 0 <= e < d ==>
                slots[..][Probe(Home(want, slots.Length), e, slots.Length)].key > TOMBSTONE
      ensures !found ==> forall i :: 0 <= i < slots.Length ==> slots[i].key > TOMBSTONE
    {
      var cap := slots.Length;
      h := Home(want, cap);
      for i := 0 to cap
        invariant h == Probe(Home(want, cap), if i < cap then i else 0, cap)
        invariant forall e :: 0 <= e < i ==> slots[..][Probe(Home(want, cap), e, cap)].key > TOMBSTONE
      {
        var cur := slots[h].key;
        if cur == EMPTY || cur == TOMBSTONE { return true, h, i; }
        h := NextSlot(h, cap);
      }
      RoundIsEverywhere(slots[..], Home(want, cap));
      found, d := false, 0;
    }

    method Put(h: nat, slot: Slot)
      requires h < slots.Length
      modifies slots
      ensures slots[..] == old(slots[..])[h := slot]
    {
      slots[h] := slot;
    }

    /** `cancel_index_insert` of an id that is not indexed: adds it unless every slot is taken. */
    method Insert(id: nat, task: nat)
      requires Valid() && id > 0 && id !in Tasks()
      modifies this, slots
      ensures Valid()
      ensures Tasks() == if |old(Tasks())| < slots.Length then old(Tasks())[id := task] else old(Tasks())
      ensures Stores(old(Now()), Now(), id, task)
    {
      FullIffNoFreeSlot(slots[..], at);
      if slots.Length == 0 { return; }
      var found, h, d := SeekFree(Key(id));
      if found {
        OccupyPlaced(slots[..], at, id, d, task);
        OccupyTasks(slots[..], at, id, h, task);
        ghost var was := Now();
        Put(h, Slot(Key(id), task));
        at := at[id := h];
        assert Inserts(was, Now(), id, task, d);
      }
    }

    /** A tombstone in place of the entry of `id`. */
    method Bury(id: nat, h: nat, ghost keeps: bool, task: nat)
      requires Valid() && id > 0 && h < slots.Length && slots[h].key == Key(id)
      requires task == if keeps then slots[h].task else NULL
      modifies this, slots
      ensures Valid() && id in old(Tasks()) && Tasks() == old(Tasks()) - {id}
      ensures Buries(old(Now()), Now(), id, keeps)
    {
      assert SlotKnown(slots[..], at, h);
      TombstonePlaced(slots[..], at, id, task);
      TombstoneTasks(slots[..], at, id, task);
      ghost var was := Now();
      Put(h, Slot(TOMBSTONE, task));
      at := at - {id};
      assert Buries(was, Now(), id, keeps);
    }

    /** `cancel_index_remove`: the worker's clearing at the run boundary; absent ids are left alone. */
    method Remove(id: nat)
      requires Valid() && id > 0
      modifies this, slots
      ensures Valid()
      ensures Tasks() == old(Tasks()) - {id}
      ensures Drops(old(Now()), Now(), id, true)
    {
      if slots.Length == 0 { return; }
      var found, h, d := Seek(Key(id));
      if found {
        Bury(id, h, true, slots[h].task);
      } else {
        AbsentAfterProbe(slots[..], at, id, d);
      }
    }

    /** `cancel_index_claim`: succeeds exactly for indexed ids, and only once. */
    method Claim(id: nat) returns (won: bool)
      requires Valid() && id > 0
      modifies this, slots
      ensures Valid()
      ensures won <==> id in old(Tasks())
      ensures Tasks() == old(Tasks()) - {id}
      ensures Drops(old(Now()), Now(), id, false)
    {
      if slots.Length == 0 { return false; }
      var h;
      ghost var d;
      won, h, d := Seek(Key(id));
      if won {
        Bury(id, h, false, NULL);
      } else {
        AbsentAfterProbe(slots[..], at, id, d);
      }
    }
  }
}
