/** The build phase and the one-shot submit of a task DAG: `loom_dag_add_node`, `loom_dag_add_edge` and
    `loom_dag_submit` up to the release of the roots.  Every call runs under `dag->lock`, so the calls
    are sequential; allocation outcomes are inputs. */
module Dag {
  import opened Collections
  import opened Codes
  import opened DagGraph

  function Elems(q: seq<nat>): set<nat>
  {
    set x | x in q
  }

  // ---------------------------------------------------------------- Kahn pass

  /** The predecessors of v already dequeued once the first j successors of `id` are handled. */
  function Done(g: Graph, before: set<nat>, id: nat, j: nat, v: nat): set<nat>
    requires id < |g| && j <= |g[id].succs|
  {
    if v in g[id].succs[..j] then before + {id} else before
  }

  /** Every node in the queue is there once, after all its predecessors. */
  ghost predicate QueueOk(g: Graph, q: seq<nat>)
  {
    && Distinct(q)
    && (forall x :: x in q ==> x in Ids(g))
    && EachAfterPreds(g, q)
  }

  /** A node is in the queue exactly when its private in-degree has reached zero. */
  ghost predicate ZeroQueued(g: Graph, indeg: seq<nat>, q: seq<nat>)
    requires |indeg| == |g|
  {
    forall v {:trigger ZeroIff(g, indeg, q, v)} :: 0 <= v < |g| && g[v].added ==> ZeroIff(g, indeg, q, v)
  }

  ghost predicate ZeroIff(g: Graph, indeg: seq<nat>, q: seq<nat>, v: nat)
    requires v < |g| == |indeg|
  {
    v in q <==> indeg[v] == 0
  }

  /** v's private in-degree counts its predecessors outside `done`. */
  ghost predicate Counts(g: Graph, indeg: seq<nat>, v: nat, done: set<nat>)
    requires v < |g| == |indeg|
  {
    indeg[v] == |Preds(g, v) - done|
  }

  /** The private in-degrees count the predecessors not yet dequeued. */
  ghost predicate CountsRest(g: Graph, indeg: seq<nat>, done: set<nat>)
    requires |indeg| == |g|
  {
    forall v {:trigger Counts(g, indeg, v, done)} :: 0 <= v < |g| && g[v].added ==> Counts(g, indeg, v, done)
  }

  ghost predicate CountsInner(g: Graph, indeg: seq<nat>, before: set<nat>, id: nat, j: nat)
    requires |indeg| == |g| && id < |g| && j <= |g[id].succs|
  {
    forall v {:trigger CountsAt(g, indeg, before, id, j, v)} :: 0 <= v < |g| && g[v].added ==>
      CountsAt(g, indeg, before, id, j, v)
  }

  ghost predicate CountsAt(g: Graph, indeg: seq<nat>, before: set<nat>, id: nat, j: nat, v: nat)
    requires v < |g| == |indeg| && id < |g| && j <= |g[id].succs|
  {
    Counts(g, indeg, v, Done(g, before, id, j, v))
  }

  lemma DropOne(preds: set<nat>, before: set<nat>, id: nat)
    requires id in preds && id !in before
    ensures |preds - (before + {id})| == |preds - before| - 1
  {
    assert preds - (before + {id}) == (preds - before) - {id};
  }

  /** Handling the edge id -> sid takes exactly one predecessor off sid's count. */
  lemma EdgeHandled(g: Graph, indeg: seq<nat>, before: set<nat>, id: nat, j: nat)
    requires |indeg| == |g| && id < |g| && j < |g[id].succs| && Distinct(g[id].succs) && Added(g, g[id].succs[j])
    requires id !in before && CountsInner(g, indeg, before, id, j)
    ensures indeg[g[id].succs[j]] > 0
    ensures CountsInner(g, indeg[g[id].succs[j] := indeg[g[id].succs[j]] - 1], before, id, j + 1)
  {
    var sid := g[id].succs[j];
    assert sid !in g[id].succs[..j];
    assert id in Preds(g, sid);
    assert CountsAt(g, indeg, before, id, j, sid);
    DropOne(Preds(g, sid), before, id);
    assert g[id].succs[..j + 1] == g[id].succs[..j] + [sid];
    var indeg' := indeg[sid := indeg[sid] - 1];
    forall v | 0 <= v < |g| && g[v].added ensures CountsAt(g, indeg', before, id, j + 1, v) {
      assert CountsAt(g, indeg, before, id, j, v);
    }
  }

  /** A node whose count just reached zero has all its predecessors behind it and a free queue cell. */
  lemma EnqueueOk(g: Graph, q: seq<nat>, done: set<nat>, qh: nat, sid: nat)
    requires QueueOk(g, q) && sid in Ids(g) && sid !in q
    requires qh <= |q| && done == Elems(q[..qh]) && Preds(g, sid) <= done
    ensures QueueOk(g, q + [sid]) && |q| < |Ids(g)|
  {
    var q' := q + [sid];
    Pigeonhole(Ids(g), q');
    forall k | 0 <= k < |q'| ensures PredsBefore(g, q', k) {
      if k < |q| {
        assert PredsBefore(g, q, k) && q'[..k] == q[..k];
      } else {
        assert q'[..k] == q;
        assert forall u :: Edge(g, u, sid) ==> u in Preds(g, sid);
      }
    }
  }

  lemma EmptyDifference(a: set<nat>, b: set<nat>)
    requires |a - b| == 0
    ensures a <= b
  {
    assert a - b == {};
    assert forall x :: x in a ==> x in a - b || x in b;
  }

  /** A node left out of the queue still waits for a predecessor that is itself left out. */
  lemma LeftWaits(g: Graph, indeg: seq<nat>, q: seq<nat>, x: nat)
    requires |indeg| == |g| && x < |g| && g[x].added && x !in q
    requires indeg[x] == 0 ==> x in q
    requires Counts(g, indeg, x, Elems(q))
    requires forall u :: Edge(g, u, x) ==> Added(g, u)
    ensures HasPredIn(g, Ids(g) - Elems(q), x)
  {
    assert Preds(g, x) - Elems(q) != {};
    var u :| u in Preds(g, x) - Elems(q);
    assert Edge(g, u, x);
  }

  /** The pass ran dry: the queue is a topological order of everything, or what is left has a cycle. */
  lemma RanDry(g: Graph, indeg: seq<nat>, q: seq<nat>)
    requires WellFormed(g) && |indeg| == |g| && QueueOk(g, q) && ZeroQueued(g, indeg, q)
    requires CountsRest(g, indeg, Elems(q))
    ensures |q| == |Ids(g)| ==> Topological(g, q) && !HasCycle(g)
    ensures |q| != |Ids(g)| ==> HasCycle(g)
  {
    SizeOfElems(q);
    assert Elems(q) <= Ids(g);
    SubsetSize(Elems(q), Ids(g));
    if |q| == |Ids(g)| {
      assert Topological(g, q);
      OrderedHasNoCycle(g, q);
    } else {
      var v := Missing(Elems(q), Ids(g));
      LeftHasCycle(g, indeg, q, v);
    }
  }

  lemma Missing(a: set<nat>, b: set<nat>) returns (x: nat)
    requires |a| < |b|
    ensures x in b && x !in a
  {
    if b <= a {
      SubsetSize(b, a);
      assert false;
    }
    x :| x in b && x !in a;
  }

  lemma LeftHasCycle(g: Graph, indeg: seq<nat>, q: seq<nat>, v: nat)
    requires WellFormed(g) && |indeg| == |g| && ZeroQueued(g, indeg, q) && CountsRest(g, indeg, Elems(q))
    requires v in Ids(g) && v !in Elems(q)
    ensures HasCycle(g)
  {
    var left := Ids(g) - Elems(q);
    forall x {:trigger HasPredIn(g, left, x)} | x in left ensures HasPredIn(g, left, x) {
      assert Counts(g, indeg, x, Elems(q)) && ZeroIff(g, indeg, q, x);
      LeftWaits(g, indeg, q, x);
    }
    StuckHasCycle(g, left, v);
  }

  lemma {:induction false} SizeOfElems(q: seq<nat>)
    requires Distinct(q)
    ensures |Elems(q)| == |q|
  {
    if q != [] {
      SizeOfElems(q[1..]);
      assert Elems(q) == Elems(q[1..]) + {q[0]};
    }
  }

  lemma IdsStep(g: Graph, i: nat)
    requires i < |g|
    ensures Ids(g[..i + 1]) == Ids(g[..i]) + (if g[i].added then {i} else {})
  {
  }

  /** Lines 373-380: count the added records. */
  method CountAdded(g: Graph) returns (added: nat)
    ensures added == |Ids(g)|
  {
    added := 0;
    for i := 0 to |g|
      invariant added == |Ids(g[..i])|
    {
      IdsStep(g, i);
      if g[i].added {
        added := added + 1;
      }
    }
    assert g[..|g|] == g;
  }

  /** The in-degrees of the first i records are copied and the roots among them queued. */
  ghost predicate Seeded(g: Graph, indeg: seq<nat>, q: seq<nat>, i: nat)
    requires |indeg| == |g| && i <= |g|
  {
    && Distinct(q)
    && (forall x :: x in q ==> x < i && g[x].added && g[x].inDegree == 0)
    && (forall v :: 0 <= v < i && g[v].added ==> indeg[v] == g[v].inDegree && (g[v].inDegree == 0 ==> v in q))
  }

  lemma SeedRoom(g: Graph, q: seq<nat>, i: nat)
    requires Distinct(q) && i < |g| && g[i].added && forall x :: x in q ==> x < i && g[x].added
    ensures |q| < |Ids(g)| && Distinct(q + [i])
  {
    forall k | 0 <= k < |q + [i]| ensures (q + [i])[k] in Ids(g) {
      assert k < |q| ==> q[k] in q;
    }
    Pigeonhole(Ids(g), q + [i]);
  }

  lemma SeedDone(g: Graph, indeg: seq<nat>, q: seq<nat>)
    requires WellFormed(g) && |indeg| == |g| && Seeded(g, indeg, q, |g|)
    ensures QueueOk(g, q) && ZeroQueued(g, indeg, q) && CountsRest(g, indeg, {})
  {
    forall k | 0 <= k < |q| ensures PredsBefore(g, q, k) {
      assert q[k] in q && DegreeOk(g, q[k]);
      assert Preds(g, q[k]) == {};
      assert forall u :: Edge(g, u, q[k]) ==> u in Preds(g, q[k]);
    }
    forall v | 0 <= v < |g| && g[v].added ensures Counts(g, indeg, v, {}) {
      assert DegreeOk(g, v) && Preds(g, v) - {} == Preds(g, v);
    }
  }

  /** Lines 413-421: copy the in-degrees and queue the roots in id order. */
  method SeedQueue(g: Graph, indeg: array<nat>, queue: array<nat>) returns (qt: nat)
    requires WellFormed(g) && indeg.Length == |g| && queue.Length == |Ids(g)|
    requires indeg != queue
    modifies indeg, queue
    ensures qt <= queue.Length
    ensures QueueOk(g, queue[..qt])
    ensures ZeroQueued(g, indeg[..], queue[..qt])
    ensures CountsRest(g, indeg[..], {})
  {
    qt := 0;
    for i := 0 to |g|
      invariant qt <= queue.Length
      invariant Seeded(g, indeg[..], queue[..qt], i)
    {
      if g[i].added {
        indeg[i] := g[i].inDegree;
        if indeg[i] == 0 {
          ghost var q := queue[..qt];
          SeedRoom(g, q, i);
          queue[qt] := i;
          qt := qt + 1;
          assert queue[..qt] == q + [i];
        }
      }
    }
    SeedDone(g, indeg[..], queue[..qt]);
  }

  /** What holds at each turn of the inner loop. */
  ghost predicate Handling(g: Graph, indeg: seq<nat>, q: seq<nat>, before: set<nat>, id: nat, j: nat)
    requires |indeg| == |g| && id < |g| && j <= |g[id].succs|
  {
    QueueOk(g, q) && ZeroQueued(g, indeg, q) && CountsInner(g, indeg, before, id, j)
  }

  lemma ZeroLeaves(g: Graph, indeg: seq<nat>, q: seq<nat>, sid: nat)
    requires |indeg| == |g| && sid < |g| && indeg[sid] > 0 && ZeroQueued(g, indeg, q) && g[sid].added
    ensures var indeg' := indeg[sid := indeg[sid] - 1];
            ZeroQueued(g, indeg', if indeg'[sid] == 0 then q + [sid] else q)
  {
    var indeg' := indeg[sid := indeg[sid] - 1];
    var q' := if indeg'[sid] == 0 then q + [sid] else q;
    forall v | 0 <= v < |g| && g[v].added ensures ZeroIff(g, indeg', q', v) {
      assert ZeroIff(g, indeg, q, v);
    }
  }

  /** One turn of the inner loop: the count drops by one without underflow, and the successor joins the
      queue, where there is room for it, exactly when its count reaches zero. */
  lemma HandleOne(g: Graph, indeg: seq<nat>, q: seq<nat>, before: set<nat>, id: nat, j: nat, qh: nat)
    requires |indeg| == |g| && id < |g| && j < |g[id].succs| && Distinct(g[id].succs) && Added(g, g[id].succs[j])
    requires Handling(g, indeg, q, before, id, j)
    requires id !in before && qh <= |q| && before + {id} == Elems(q[..qh])
    ensures indeg[g[id].succs[j]] > 0
    ensures var sid := g[id].succs[j];
            var indeg' := indeg[sid := indeg[sid] - 1];
            var q' := if indeg'[sid] == 0 then q + [sid] else q;
            |q'| <= |Ids(g)| && Handling(g, indeg', q', before, id, j + 1)
  {
    var sid := g[id].succs[j];
    EdgeHandled(g, indeg, before, id, j);
    ZeroLeaves(g, indeg, q, sid);
    assert ZeroIff(g, indeg, q, sid);
    Pigeonhole(Ids(g), q);
    if indeg[sid] == 1 {
      assert sid in g[id].succs[..j + 1];
      assert CountsAt(g, indeg[sid := 0], before, id, j + 1, sid);
      EmptyDifference(Preds(g, sid), before + {id});
      EnqueueOk(g, q, before + {id}, qh, sid);
    }
  }

  /** `--indeg[sid]` */
  method Decrement(indeg: array<nat>, sid: nat) returns (left: nat)
    requires sid < indeg.Length && indeg[sid] > 0
    modifies indeg
    ensures left == old(indeg[sid]) - 1 && indeg[..] == old(indeg[..])[sid := left]
  {
    indeg[sid] := indeg[sid] - 1;
    left := indeg[sid];
  }

  /** `queue[qt++] = sid` */
  method Append(queue: array<nat>, qt: nat, sid: nat, ghost qh: nat) returns (qt': nat)
    requires qh <= qt < queue.Length
    modifies queue
    ensures qt' == qt + 1 && queue[..qt'] == old(queue[..qt]) + [sid] && queue[..qh] == old(queue[..qh])
  {
    queue[qt] := sid;
    qt' := qt + 1;
  }

  /** Lines 428-438: one successor of the node `id` just dequeued. */
  method HandleEdge(g: Graph, indeg: array<nat>, queue: array<nat>, added: nat,
                    id: nat, j: nat, qt0: nat, ghost before: set<nat>, ghost qh: nat)
    returns (qt: nat, bounded: bool)
    requires indeg.Length == |g| && indeg != queue && added == |Ids(g)| == queue.Length
    requires id < |g| && j < |g[id].succs| && Distinct(g[id].succs) && Added(g, g[id].succs[j])
    requires qh <= qt0 <= queue.Length && id !in before && before + {id} == Elems(queue[..qh])
    requires Handling(g, indeg[..], queue[..qt0], before, id, j)
    modifies indeg, queue
    ensures bounded && qt0 <= qt <= queue.Length && queue[..qh] == old(queue[..qh])
    ensures Handling(g, indeg[..], queue[..qt], before, id, j + 1)
  {
    qt, bounded := qt0, true;
    var sid := g[id].succs[j];
    ghost var d, q := indeg[..], queue[..qt];
    assert q[..qh] == queue[..qh];
    HandleOne(g, d, q, before, id, j, qh);
    var left := Decrement(indeg, sid);
    if left == 0 {
      if qt >= added {
        bounded := false;
      } else {
        qt := Append(queue, qt, sid, qh);
      }
    }
    assert indeg[..] == d[sid := left];
    assert queue[..qt] == if left == 0 then q + [sid] else q;
  }

  ghost predicate GoodSuccs(g: Graph, id: nat)
  {
    id < |g| && Distinct(g[id].succs) && forall j :: 0 <= j < |g[id].succs| ==> Added(g, g[id].succs[j])
  }

  lemma QueuedIsGood(g: Graph, q: seq<nat>, k: nat)
    requires WellFormed(g) && QueueOk(g, q) && k < |q|
    ensures GoodSuccs(g, q[k])
  {
    assert q[k] in q;
    forall j | 0 <= j < |g[q[k]].succs| ensures Added(g, g[q[k]].succs[j]) {
      assert Edge(g, q[k], g[q[k]].succs[j]);
    }
  }

  /** The loop over the edges of one node. */
  method HandleEdges(g: Graph, indeg: array<nat>, queue: array<nat>, added: nat,
                     id: nat, qt0: nat, ghost before: set<nat>, ghost qh: nat)
    returns (qt: nat, bounded: bool)
    requires indeg.Length == |g| && indeg != queue && added == |Ids(g)| == queue.Length && GoodSuccs(g, id)
    requires qh <= qt0 <= queue.Length && id !in before && before + {id} == Elems(queue[..qh])
    requires Handling(g, indeg[..], queue[..qt0], before, id, 0)
    modifies indeg, queue
    ensures bounded && qt0 <= qt <= queue.Length && queue[..qh] == old(queue[..qh])
    ensures Handling(g, indeg[..], queue[..qt], before, id, |g[id].succs|)
  {
    qt, bounded := qt0, true;
    var j := 0;
    ghost var taken := queue[..qh];
    while j < |g[id].succs| && bounded
      invariant 0 <= j <= |g[id].succs| && bounded
      invariant qt0 <= qt <= queue.Length && queue[..qh] == taken
      invariant Handling(g, indeg[..], queue[..qt], before, id, j)
    {
      qt, bounded := HandleEdge(g, indeg, queue, added, id, j, qt, before, qh);
      j := j + 1;
    }
  }

  /** Lines 426-439: take the edges of the node just dequeued off its successors. */
  method HandleSuccessors(g: Graph, indeg: array<nat>, queue: array<nat>, added: nat, qh: nat, qt0: nat)
    returns (qt: nat, bounded: bool)
    requires added == |Ids(g)| == queue.Length && indeg.Length == |g|
    requires indeg != queue && 0 < qh <= qt0 <= queue.Length && GoodSuccs(g, queue[qh - 1])
    requires QueueOk(g, queue[..qt0]) && ZeroQueued(g, indeg[..], queue[..qt0])
    requires CountsRest(g, indeg[..], Elems(queue[..qh - 1]))
    modifies indeg, queue
    ensures bounded
    ensures qt0 <= qt <= queue.Length
    ensures QueueOk(g, queue[..qt]) && ZeroQueued(g, indeg[..], queue[..qt])
    ensures CountsRest(g, indeg[..], Elems(queue[..qh]))
  {
    ghost var before := Elems(queue[..qh - 1]);
    var id := queue[qh - 1];
    assert queue[..qt0][..qh - 1] == queue[..qh - 1] && queue[..qt0][..qh] == queue[..qh];
    Dequeued(g, indeg[..], queue[..qt0], qh);
    qt, bounded := HandleEdges(g, indeg, queue, added, id, qt0, before, qh);
    LastEdge(g, indeg[..], before, id);
  }

  lemma Dequeued(g: Graph, indeg: seq<nat>, q: seq<nat>, qh: nat)
    requires |indeg| == |g| && QueueOk(g, q) && ZeroQueued(g, indeg, q) && 0 < qh <= |q|
    requires CountsRest(g, indeg, Elems(q[..qh - 1]))
    ensures q[qh - 1] < |g| && q[qh - 1] !in Elems(q[..qh - 1])
    ensures Elems(q[..qh - 1]) + {q[qh - 1]} == Elems(q[..qh])
    ensures Handling(g, indeg, q, Elems(q[..qh - 1]), q[qh - 1], 0)
  {
    var id, before := q[qh - 1], Elems(q[..qh - 1]);
    assert id in q;
    assert q[..qh] == q[..qh - 1] + [id];
    forall v | 0 <= v < |g| && g[v].added ensures CountsAt(g, indeg, before, id, 0, v) {
      assert Counts(g, indeg, v, before);
    }
  }

  lemma LastEdge(g: Graph, indeg: seq<nat>, before: set<nat>, id: nat)
    requires |indeg| == |g| && id < |g| && CountsInner(g, indeg, before, id, |g[id].succs|)
    ensures CountsRest(g, indeg, before + {id})
  {
    forall v | 0 <= v < |g| && g[v].added ensures Counts(g, indeg, v, before + {id}) {
      assert g[id].succs[..|g[id].succs|] == g[id].succs;
      assert CountsAt(g, indeg, before, id, |g[id].succs|, v);
      if v !in g[id].succs {
        assert id !in Preds(g, v);
        assert Preds(g, v) - (before + {id}) == Preds(g, v) - before;
      }
    }
  }

  /** The Kahn pass of `loom_dag_submit`: it reports a cycle exactly when the graph has one, its
      `qt >= added` guard never fires, and without a cycle its queue is a topological order. */
  method KahnPass(g: Graph, added: nat) returns (hasCycle: bool, order: seq<nat>)
    requires WellFormed(g) && added == |Ids(g)|
    ensures hasCycle <==> HasCycle(g)
    ensures !hasCycle ==> Topological(g, order)
  {
    var indeg := new nat[|g|](_ => 0);
    var queue := new nat[added](_ => 0);
    var qt := SeedQueue(g, indeg, queue);
    var qh, bounded := 0, true;
    assert Elems(queue[..0]) == {};
    while qh < qt && bounded
      invariant 0 <= qh <= qt <= queue.Length && bounded
      invariant QueueOk(g, queue[..qt]) && ZeroQueued(g, indeg[..], queue[..qt])
      invariant CountsRest(g, indeg[..], Elems(queue[..qh]))
      decreases queue.Length - qh
    {
      QueuedIsGood(g, queue[..qt], qh);
      qh := qh + 1;
      qt, bounded := HandleSuccessors(g, indeg, queue, added, qh, qt);
    }
    order := queue[..qt];
    RanDry(g, indeg[..], order);
    hasCycle := !bounded || qt != added;
  }

  // ---------------------------------------------------------------- build phase and submit

  lemma BlankIsWellFormed(n: nat)
    ensures WellFormed(seq(n, _ => BLANK)) && Ids(seq(n, _ => BLANK)) == {}
  {
    var g: Graph := seq(n, _ => BLANK);
    forall v | 0 <= v < |g| ensures DegreeOk(g, v) {
      assert Preds(g, v) == {};
    }
  }

  /** Marking a fresh record as added keeps the graph well formed and changes no edge. */
  lemma NodeAdded(g: Graph, id: nat)
    requires WellFormed(g) && id < |g| && !g[id].added
    ensures var g' := g[id := Node(true, [], 0)];
            && WellFormed(g') && Ids(g') == Ids(g) + {id} && (forall u, v :: Edge(g', u, v) <==> Edge(g, u, v))
  {
    var g' := g[id := Node(true, [], 0)];
    if g[id].succs != [] {
      assert Edge(g, id, g[id].succs[0]);
    }
    forall u, v ensures Edge(g', u, v) <==> Edge(g, u, v) {}
    forall v | 0 <= v < |g'| ensures DegreeOk(g', v) {
      assert DegreeOk(g, v);
      assert Preds(g', v) == Preds(g, v);
      if v == id && Preds(g, id) != {} {
        var u :| u in Preds(g, id);
        assert Edge(g, u, id);
      }
    }
  }

  function WithEdge(g: Graph, from: nat, to: nat): Graph
    requires from < |g| && to < |g|
  {
    var g1 := g[from := g[from].(succs := g[from].succs + [to])];
    g1[to := g1[to].(inDegree := g1[to].inDegree + 1)]
  }

  lemma PredsWithEdge(g: Graph, from: nat, to: nat, v: nat)
    requires from < |g| && to < |g| && from != to
    ensures Preds(WithEdge(g, from, to), v) == if v == to then Preds(g, v) + {from} else Preds(g, v)
  {
    var g' := WithEdge(g, from, to);
    assert forall u :: 0 <= u < |g| ==> g'[u].succs == if u == from then g[u].succs + [to] else g[u].succs;
  }

  /** Appending an edge between two different added nodes that are not joined yet. */
  lemma EdgeAdded(g: Graph, from: nat, to: nat)
    requires WellFormed(g) && Added(g, from) && Added(g, to) && from != to && !Edge(g, from, to)
    ensures var g' := WithEdge(g, from, to);
            && WellFormed(g') && Ids(g') == Ids(g)
            && (forall u, v :: Edge(g', u, v) <==> Edge(g, u, v) || (u == from && v == to))
  {
    var g' := WithEdge(g, from, to);
    forall u, v ensures Edge(g', u, v) <==> Edge(g, u, v) || (u == from && v == to) {}
    forall v | 0 <= v < |g'| ensures DegreeOk(g', v) {
      assert DegreeOk(g, v);
      PredsWithEdge(g, from, to, v);
      assert from !in Preds(g, to);
    }
    assert Distinct(g'[from].succs);
  }

  /** The DAG object: an array of node records, allocated by the first build call, and the flags of the
      one-shot submit. */
  class TaskDag {
    const capacity: nat
    var nodes: Graph          // [] until the array is allocated
    var submitted: bool
    var destroyed: bool
    var failed: bool
    var failError: Rc
    var addedCount: nat
    var pending: seq<nat>     // pending_preds, seeded by Submit

    ghost predicate Valid()
      reads this
    {
      (nodes == [] || |nodes| == capacity) && WellFormed(nodes) && addedCount == |Ids(nodes)|
    }

    constructor (capacity: nat)
      ensures Valid() && this.capacity == capacity && nodes == [] && !submitted && !destroyed && !failed
    {
      this.capacity := capacity;
      nodes, pending := [], [];
      submitted, destroyed, failed, failError, addedCount := false, false, false, OK, 0;
      assert Ids([]) == {};
    }

    /** Lines 268-274 and 313-319: allocate the zeroed node array on first use. */
    method EnsureNodes(allocOk: bool) returns (ok: bool)
      requires Valid()
      modifies this`nodes
      ensures Valid() && (nodes == old(nodes) || (old(nodes) == [] && nodes == seq(capacity, _ => BLANK)))
      ensures ok <==> old(nodes) != [] || allocOk
      ensures ok ==> |nodes| == capacity
      ensures !ok ==> nodes == old(nodes)
    {
      if nodes == [] {
        if !allocOk {
          return false;
        }
        BlankIsWellFormed(capacity);
        assert Ids([]) == {};
        nodes := seq(capacity, _ => BLANK);
      }
      ok := true;
    }

    /** `loom_dag_add_node`: accepted exactly for a task function, an id in range that is not taken, and
        a DAG not submitted yet; then the node set grows by the id and no edge changes. */
    method AddNode(id: nat, hasFn: bool, allocOk: bool) returns (rc: Rc)
      requires Valid()
      modifies this`nodes, this`addedCount
      ensures Valid()
      ensures rc == OK <==>
                hasFn && id < capacity && !submitted && !destroyed
                  && (old(nodes) != [] || allocOk) && !Added(old(nodes), id)
      ensures rc == ALLOC ==> !allocOk
      ensures Ids(nodes) == if rc == OK then old(Ids(nodes)) + {id} else old(Ids(nodes))
      ensures forall u, v :: Edge(nodes, u, v) <==> old(Edge(nodes, u, v))
    {
      if !hasFn || id >= capacity {
        return INVALID;
      }
      if submitted || destroyed {
        return INVALID;
      }
      BlankIsWellFormed(capacity);
      assert Ids([]) == {};
      var ok := EnsureNodes(allocOk);
      if !ok {
        return ALLOC;
      }
      if nodes[id].added {
        return INVALID;
      }
      NodeAdded(nodes, id);
      nodes := nodes[id := Node(true, [], 0)];
      addedCount := addedCount + 1;
      rc := OK;
    }

    /** `loom_dag_add_edge`: accepted exactly for two different added nodes not joined yet, before
        submit and with its allocations succeeding; then exactly that edge is new. */
    method AddEdge(from: nat, to: nat, allocOk: bool, growOk: bool) returns (rc: Rc)
      requires Valid()
      modifies this`nodes
      ensures Valid()
      ensures rc == OK <==>
                && from < capacity && to < capacity && !submitted && !destroyed && growOk
                && Added(old(nodes), from) && Added(old(nodes), to) && from != to && !Edge(old(nodes), from, to)
      ensures rc == ALLOC ==> !allocOk || !growOk
      ensures Ids(nodes) == old(Ids(nodes))
      ensures forall u, v :: Edge(nodes, u, v) <==> old(Edge(nodes, u, v)) || (rc == OK && u == from && v == to)
    {
      if from >= capacity || to >= capacity {
        return INVALID;
      }
      if submitted || destroyed {
        return INVALID;
      }
      BlankIsWellFormed(capacity);
      assert Ids([]) == {};
      var ok := EnsureNodes(allocOk);
      if !ok {
        return ALLOC;
      }
      if !nodes[from].added || !nodes[to].added {
        return INVALID;
      }
      if from == to {
        return INVALID;
      }
      var i := 0;
      while i < |nodes[from].succs|
        invariant 0 <= i <= |nodes[from].succs|
        invariant to !in nodes[from].succs[..i]
      {
        if nodes[from].succs[i] == to {
          return INVALID;
        }
        i := i + 1;
      }
      assert nodes[from].succs[..i] == nodes[from].succs;
      if !growOk {
        return ALLOC;
      }
      EdgeAdded(nodes, from, to);
      nodes := WithEdge(nodes, from, to);
      rc := OK;
    }

    /** `loom_dag_submit` up to its root releases.  One-shot.  It fails with INVALID exactly on a cyclic
        graph, and otherwise seeds every countdown with the number of predecessors and releases exactly
        the nodes without predecessors, in id order. */
    method Submit(allocOk: bool) returns (rc: Rc, roots: seq<nat>)
      requires Valid()
      modifies this`submitted, this`failed, this`failError, this`addedCount, this`pending
      ensures Valid()
      ensures old(submitted) || destroyed ==>
                rc == INVALID && roots == []
                  && submitted == old(submitted) && failed == old(failed) && pending == old(pending)
      ensures !old(submitted) && !destroyed ==> submitted
      ensures !old(submitted) && !destroyed && Ids(nodes) == {} ==> rc == OK && roots == [] && failed == old(failed)
      ensures !old(submitted) && !destroyed && Ids(nodes) != {} && !allocOk ==>
                rc == ALLOC && failed && failError == ALLOC && roots == []
      ensures !old(submitted) && !destroyed && Ids(nodes) != {} && allocOk ==>
                (rc == INVALID <==> HasCycle(nodes))
                  && (rc == INVALID ==> failed && failError == INVALID && roots == [])
      ensures !old(submitted) && !destroyed && rc == OK && Ids(nodes) != {} ==>
                && failed == old(failed)
                && (exists order :: Topological(nodes, order))
                && |pending| == |nodes| && (forall v :: v in Ids(nodes) ==> pending[v] == |Preds(nodes, v)|)
                && (forall v :: v in roots <==> v in Ids(nodes) && Preds(nodes, v) == {})
                && (forall i, j :: 0 <= i < j < |roots| ==> roots[i] < roots[j])
    {
      roots := [];
      if submitted || destroyed {
        return INVALID, [];
      }
      var added := CountAdded(nodes);
      addedCount := added;
      submitted := true;
      if added == 0 {
        return OK, [];
      }
      if !allocOk {
        failError, failed := ALLOC, true;
        return ALLOC, [];
      }
      var hasCycle, order := KahnPass(nodes, added);
      if hasCycle {
        failError, failed := INVALID, true;
        return INVALID, [];
      }
      pending := SeedPending(nodes);
      roots := RootsOf(nodes);
      rc := OK;
    }
  }

  /** Lines 460-465. */
  method SeedPending(g: Graph) returns (pending: seq<nat>)
    requires WellFormed(g)
    ensures |pending| == |g| && forall v :: v in Ids(g) ==> pending[v] == |Preds(g, v)|
  {
    pending := [];
    for i := 0 to |g|
      invariant |pending| == i && forall v :: 0 <= v < i && g[v].added ==> pending[v] == |Preds(g, v)|
    {
      assert DegreeOk(g, i);
      pending := pending + [if g[i].added then g[i].inDegree else 0];
    }
  }

  /** Lines 472-475: the ids the root loop releases, in order. */
  method RootsOf(g: Graph) returns (roots: seq<nat>)
    requires WellFormed(g)
    ensures forall v :: v in roots <==> v in Ids(g) && Preds(g, v) == {}
    ensures forall i, j :: 0 <= i < j < |roots| ==> roots[i] < roots[j]
  {
    roots := [];
    for i := 0 to |g|
      invariant forall v :: v in roots <==> v in Ids(g) && v < i && Preds(g, v) == {}
      invariant forall i, j :: 0 <= i < j < |roots| ==> roots[i] < roots[j]
      invariant forall k :: 0 <= k < |roots| ==> roots[k] < i
    {
      assert DegreeOk(g, i);
      if g[i].added && g[i].inDegree == 0 {
        roots := roots + [i];
      }
    }
  }
}
