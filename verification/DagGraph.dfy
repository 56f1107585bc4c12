/** The task graph as `loom_dag_add_node` / `loom_dag_add_edge` build it, cycles in it, and topological
    orders of it. */
module DagGraph {
  import opened Collections

  /** One record of the node array: `added` is `fn != NULL`. */
  datatype Node = Node(added: bool, succs: seq<nat>, inDegree: nat)

  type Graph = seq<Node>

  const BLANK := Node(false, [], 0)

  predicate Edge(g: Graph, u: nat, v: nat)
  {
    u < |g| && v in g[u].succs
  }

  predicate Added(g: Graph, v: nat)
  {
    v < |g| && g[v].added
  }

  function Ids(g: Graph): set<nat>
  {
    set v | 0 <= v < |g| && g[v].added
  }

  function Preds(g: Graph, v: nat): set<nat>
  {
    set u | 0 <= u < |g| && v in g[u].succs
  }

  /** What every accepted build call maintains: edges join different added nodes, no edge is doubled,
      and `in_degree` counts the predecessors. */
  ghost predicate WellFormed(g: Graph)
  {
    && (forall u :: 0 <= u < |g| ==> Distinct(g[u].succs))
    && (forall u, v :: Edge(g, u, v) ==> Added(g, u) && Added(g, v) && u != v)
    && (forall v {:trigger DegreeOk(g, v)} :: 0 <= v < |g| ==> DegreeOk(g, v))
  }

  predicate DegreeOk(g: Graph, v: nat)
    requires v < |g|
  {
    g[v].inDegree == |Preds(g, v)|
  }

  // ---------------------------------------------------------------- cycles

  ghost predicate IsPath(g: Graph, p: seq<nat>)
  {
    forall i :: 0 <= i < |p| - 1 ==> Edge(g, p[i], p[i + 1])
  }

  ghost predicate IsCycle(g: Graph, p: seq<nat>)
  {
    |p| >= 2 && p[0] == p[|p| - 1] && IsPath(g, p)
  }

  ghost predicate HasCycle(g: Graph)
  {
    exists p :: IsCycle(g, p)
  }

  /** Every predecessor of the k-th entry is an earlier entry. */
  ghost predicate PredsBefore(g: Graph, q: seq<nat>, k: nat)
    requires k < |q|
  {
    forall u :: Edge(g, u, q[k]) ==> u in q[..k]
  }

  ghost predicate EachAfterPreds(g: Graph, q: seq<nat>)
  {
    forall k {:trigger PredsBefore(g, q, k)} :: 0 <= k < |q| ==> PredsBefore(g, q, k)
  }

  /** `order` lists every added node once, each after all its predecessors. */
  ghost predicate Topological(g: Graph, order: seq<nat>)
  {
    && Distinct(order)
    && (forall v :: v in order <==> v in Ids(g))
    && EachAfterPreds(g, order)
  }

  /** Along a path the position in a topological order rises by at least one per edge. */
  lemma {:induction false} PathRises(g: Graph, order: seq<nat>, p: seq<nat>, a: nat)
    requires WellFormed(g) && Topological(g, order) && IsPath(g, p) && p != []
    requires a < |order| && order[a] == p[0]
    ensures exists b :: a + |p| - 1 <= b < |order| && order[b] == p[|p| - 1]
  {
    if |p| > 1 {
      assert Edge(g, p[0], p[1]);
      assert p[1] in order;
      var c :| 0 <= c < |order| && order[c] == p[1];
      assert PredsBefore(g, order, c);
      var d :| 0 <= d < c && order[d] == p[0];
      assert d == a;
      PathRises(g, order, p[1..], c);
    }
  }

  lemma OrderedHasNoCycle(g: Graph, order: seq<nat>)
    requires WellFormed(g) && Topological(g, order)
    ensures !HasCycle(g)
  {
    forall p | |p| >= 2 && IsPath(g, p) ensures p[0] != p[|p| - 1] {
      assert Edge(g, p[0], p[1]);
      assert p[0] in order;
      var a :| 0 <= a < |order| && order[a] == p[0];
      PathRises(g, order, p, a);
      var b :| a + |p| - 1 <= b < |order| && order[b] == p[|p| - 1];
    }
  }

  lemma {:induction false} Pigeonhole(s: set<nat>, w: seq<nat>)
    requires forall i :: 0 <= i < |w| ==> w[i] in s
    requires Distinct(w)
    ensures |w| <= |s|
  {
    if w != [] {
      Pigeonhole(s - {w[0]}, w[1..]);
    }
  }

  /** `w` walks edges backwards inside `s`. */
  ghost predicate BackWalk(g: Graph, s: set<nat>, w: seq<nat>)
  {
    && (forall i :: 0 <= i < |w| ==> w[i] in s)
    && (forall i :: 0 <= i < |w| - 1 ==> Edge(g, w[i + 1], w[i]))
  }

  ghost predicate HasPredIn(g: Graph, s: set<nat>, x: nat)
  {
    exists u :: u in s && Edge(g, u, x)
  }

  lemma {:induction false} BackWalkExists(g: Graph, s: set<nat>, v: nat, n: nat) returns (w: seq<nat>)
    requires v in s
    requires forall x {:trigger HasPredIn(g, s, x)} :: x in s ==> HasPredIn(g, s, x)
    ensures |w| == n + 1 && BackWalk(g, s, w)
  {
    if n == 0 {
      w := [v];
    } else {
      var w0 := BackWalkExists(g, s, v, n - 1);
      assert HasPredIn(g, s, w0[n - 1]);
      var u :| u in s && Edge(g, u, w0[n - 1]);
      w := w0 + [u];
    }
  }

  function Reversed(w: seq<nat>): (p: seq<nat>)
  {
    seq(|w|, i requires 0 <= i < |w| => w[|w| - 1 - i])
  }

  /** A non-empty set in which every node has a predecessor contains a cycle. */
  lemma StuckHasCycle(g: Graph, s: set<nat>, v: nat)
    requires v in s
    requires forall x {:trigger HasPredIn(g, s, x)} :: x in s ==> HasPredIn(g, s, x)
    ensures HasCycle(g)
  {
    var w := BackWalkExists(g, s, v, |s|);
    if Distinct(w) {
      Pigeonhole(s, w);
      assert false;
    }
    var i, j :| 0 <= i < j < |w| && w[i] == w[j];
    var p := Reversed(w[i..j + 1]);
    forall k | 0 <= k < |p| - 1 ensures Edge(g, p[k], p[k + 1]) {
      var m := j - k - 1;
      assert Edge(g, w[m + 1], w[m]);
      assert p[k] == w[m + 1] && p[k + 1] == w[m];
    }
    assert IsCycle(g, p);
  }
}
