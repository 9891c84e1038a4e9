/**
 * The part of `networkx.DiGraph` the pipeline uses, as a value: nodes in
 * insertion order, each node's successors in insertion order (networkx's
 * adjacency dicts), and attribute dicts per node and per edge.  At most
 * one edge exists per ordered pair; adding it again merges attributes.
 */
module DiGraph {
  import opened Wrappers
  import opened Strings
  import opened Values

  type Attrs = map<string, Value>

  /** The attributes `add_node(n, **d)` or `add_edge(u, v, **d)` stores for a dictionary `d`. */
  function AttrsOf(fs: Fields): (a: Attrs)
    ensures forall k :: k in a <==> k in Keys(fs)
    ensures forall k :: k in a ==> Some(a[k]) == Lookup(fs, k)
  {
    var a := map k | k in Keys(fs) :: Lookup(fs, k).value;
    assert forall k :: k in a ==> Lookup(fs, k).Some? && a[k] == Lookup(fs, k).value;
    a
  }

  datatype Graph = Graph(
    nodes: seq<string>,
    succ: map<string, seq<string>>,
    nodeAttrs: map<string, Attrs>,
    edgeAttrs: map<(string, string), Attrs>)
  {
    predicate HasNode(n: string) {
      n in succ
    }

    predicate HasEdge(u: string, v: string) {
      u in succ && v in succ[u]
    }

    /** Every successor is a node. */
    ghost predicate Closed() {
      forall u, v :: u in succ && v in succ[u] ==> v in succ
    }

    ghost predicate Valid() {
      && Distinct(nodes)
      && (forall n :: n in succ <==> n in nodes)
      && (forall n :: n in nodeAttrs <==> n in nodes)
      && (forall u :: u in succ ==> Distinct(succ[u]))
      && Closed()
      && (forall e :: e in edgeAttrs <==> HasEdge(e.0, e.1))
    }

    /** `G.add_node(n, **a)`: a new node goes last; an existing node's attributes are updated. */
    function AddNode(n: string, a: Attrs): (g: Graph)
      requires Valid()
      ensures g.Valid()
      ensures g.nodes == if HasNode(n) then nodes else nodes + [n]
      ensures g.nodeAttrs[n] == if HasNode(n) then nodeAttrs[n] + a else a
      ensures forall m :: m != n && m in nodeAttrs ==> g.nodeAttrs[m] == nodeAttrs[m]
      ensures forall u, v :: g.HasEdge(u, v) <==> HasEdge(u, v)
      ensures g.edgeAttrs == edgeAttrs
    {
      if n in succ then this.(nodeAttrs := nodeAttrs[n := nodeAttrs[n] + a])
      else FreshNodeValid(this, n, a); Graph(nodes + [n], succ[n := []], nodeAttrs[n := a], edgeAttrs)
    }

    /** What `add_edge` does to an endpoint: a missing node is added with no attributes. */
    function Touch(n: string): (g: Graph)
      requires Valid()
      ensures g.Valid() && g.HasNode(n) && g.edgeAttrs == edgeAttrs
      ensures g.succ == if HasNode(n) then succ else succ[n := []]
      ensures g.nodeAttrs == if HasNode(n) then nodeAttrs else nodeAttrs[n := map[]]
      ensures forall x, y :: g.HasEdge(x, y) <==> HasEdge(x, y)
      ensures forall m :: g.HasNode(m) <==> HasNode(m) || m == n
    {
      if n in succ then this
      else FreshNodeValid(this, n, map[]); Graph(nodes + [n], succ[n := []], nodeAttrs[n := map[]], edgeAttrs)
    }

    /**
     * `G.add_edge(u, v, **a)`: missing endpoints are added (u first),
     * v is appended to u's successors unless already there, and the edge's
     * attribute dict is updated with `a`.
     */
    function AddEdge(u: string, v: string, a: Attrs): (g: Graph)
      requires Valid()
      ensures g.Valid()
      ensures g.HasNode(u) && g.HasNode(v) && g.HasEdge(u, v)
      ensures forall n :: g.HasNode(n) <==> HasNode(n) || n == u || n == v
      ensures forall x, y :: g.HasEdge(x, y) <==> HasEdge(x, y) || (x == u && y == v)
      ensures g.edgeAttrs == edgeAttrs[(u, v) := (if HasEdge(u, v) then edgeAttrs[(u, v)] else map[]) + a]
      ensures g.nodeAttrs == map[u := map[], v := map[]] + nodeAttrs
    {
      var g1 := Touch(u).Touch(v);
      assert u in nodeAttrs <==> HasNode(u);
      assert v in Touch(u).nodeAttrs <==> Touch(u).HasNode(v);
      TouchBoth(nodeAttrs, u, v);
      var prev := if (u, v) in edgeAttrs then edgeAttrs[(u, v)] else map[];
      var s := if v in g1.succ[u] then g1.succ[u] else g1.succ[u] + [v];
      LinkValid(g1, u, v, s, prev + a);
      assert forall n :: n in g1.succ[u := s] <==> n in g1.succ;
      g1.(succ := g1.succ[u := s], edgeAttrs := edgeAttrs[(u, v) := prev + a])
    }

    /** The successors of `u`, as a set. */
    function SuccSet(u: string): set<string>
      requires u in succ
    {
      set v | v in succ[u]
    }

    function NodeSet(): set<string> {
      set n | n in nodes
    }

    /** The edges leaving the nodes of `ns`, node by node, each node's successors in order. */
    function EdgesFrom(ns: seq<string>): (r: seq<(string, string)>)
      requires forall n :: n in ns ==> n in succ
    {
      if |ns| == 0 then []
      else (seq(|succ[ns[0]]|, i requires 0 <= i < |succ[ns[0]]| => (ns[0], succ[ns[0]][i]))) + EdgesFrom(ns[1..])
    }

    /** `G.edges()`: networkx's iteration order. */
    function Edges(): seq<(string, string)>
      requires Valid()
    {
      EdgesFrom(nodes)
    }

    /** `G.in_degree(v)`: the number of nodes with an edge into `v`. */
    function InDegreeFrom(ns: seq<string>, v: string): nat
      requires forall n :: n in ns ==> n in succ
    {
      if |ns| == 0 then 0
      else (if v in succ[ns[0]] then 1 else 0) + InDegreeFrom(ns[1..], v)
    }

    function InDegree(v: string): nat
      requires Valid()
    {
      InDegreeFrom(nodes, v)
    }

    /** `p` follows edges of the graph. */
    ghost predicate IsWalk(p: seq<string>) {
      |p| >= 1 && forall i :: 0 <= i < |p| - 1 ==> HasEdge(p[i], p[i + 1])
    }

    /** `v` is reachable from `u` along one or more edges. */
    ghost predicate Reaches(u: string, v: string) {
      exists p :: IsWalk(p) && |p| >= 2 && p[0] == u && p[|p| - 1] == v
    }
  }

  /** A node that is not there yet goes last, with no successors and no edges into it. */
  lemma FreshNodeValid(g: Graph, n: string, a: Attrs)
    requires g.Valid() && !g.HasNode(n)
    ensures Graph(g.nodes + [n], g.succ[n := []], g.nodeAttrs[n := a], g.edgeAttrs).Valid()
  {
    DistinctSnoc(g.nodes, n);
    var h := Graph(g.nodes + [n], g.succ[n := []], g.nodeAttrs[n := a], g.edgeAttrs);
    assert forall u, v :: h.HasEdge(u, v) <==> g.HasEdge(u, v);
  }

  /** Adding two keys with empty attributes where they are missing is one merge. */
  lemma TouchBoth(m: map<string, Attrs>, u: string, v: string)
    ensures var m1 := if u in m then m else m[u := map[]];
            (if v in m1 then m1 else m1[v := map[]]) == map[u := map[], v := map[]] + m
  {
  }

  /** Extending `u`'s successors by `v` adds exactly the edge from `u` to `v`. */
  lemma LinkEdges(g: Graph, u: string, v: string, s: seq<string>)
    requires u in g.succ
    requires s == if v in g.succ[u] then g.succ[u] else g.succ[u] + [v]
    ensures forall x, y :: g.(succ := g.succ[u := s]).HasEdge(x, y) <==> g.HasEdge(x, y) || (x == u && y == v)
  {
    var h := g.(succ := g.succ[u := s]);
    forall x, y
      ensures h.HasEdge(x, y) <==> g.HasEdge(x, y) || (x == u && y == v)
    {
      if x == u {
        assert y in s <==> y in g.succ[u] || y == v;
      }
    }
  }

  /** Extending `u`'s successors by a node keeps every successor a node. */
  lemma LinkClosed(g: Graph, u: string, v: string, s: seq<string>)
    requires g.Closed() && u in g.succ && v in g.succ
    requires s == if v in g.succ[u] then g.succ[u] else g.succ[u] + [v]
    ensures g.(succ := g.succ[u := s]).Closed()
  {
    var h := g.(succ := g.succ[u := s]);
    forall x, y | x in h.succ && y in h.succ[x]
      ensures y in h.succ
    {
      if x == u {
        assert y in g.succ[u] || y == v;
      }
    }
  }

  /** Setting `u`'s successors to a duplicate-free extension by `v` keeps a graph valid. */
  lemma LinkValid(g: Graph, u: string, v: string, s: seq<string>, a: Attrs)
    requires g.Valid() && g.HasNode(u) && g.HasNode(v)
    requires s == if v in g.succ[u] then g.succ[u] else g.succ[u] + [v]
    ensures g.(succ := g.succ[u := s], edgeAttrs := g.edgeAttrs[(u, v) := a]).Valid()
    ensures forall x, y :: g.(succ := g.succ[u := s]).HasEdge(x, y) <==> g.HasEdge(x, y) || (x == u && y == v)
  {
    var h1 := g.(succ := g.succ[u := s]);
    var h := h1.(edgeAttrs := g.edgeAttrs[(u, v) := a]);
    LinkEdges(g, u, v, s);
    LinkClosed(g, u, v, s);
    assert Distinct(s) by {
      if v !in g.succ[u] {
        DistinctSnoc(g.succ[u], v);
      }
    }
    assert h.succ == h1.succ && h.nodes == g.nodes && h.nodeAttrs == g.nodeAttrs;
    assert h.Closed();
    assert forall x :: x in h.succ ==> Distinct(h.succ[x]);
    assert forall e :: e in h.edgeAttrs <==> h1.HasEdge(e.0, e.1);
    assert forall n :: n in h.succ <==> n in h.nodes;
    assert forall n :: n in h.nodeAttrs <==> n in h.nodes;
    assert forall x, y :: h.HasEdge(x, y) <==> h1.HasEdge(x, y);
    assert forall e :: e in h.edgeAttrs <==> h.HasEdge(e.0, e.1);
    assert Distinct(h.nodes);
    assert h.Valid();
    assert h == g.(succ := g.succ[u := s], edgeAttrs := g.edgeAttrs[(u, v) := a]);
  }

  function Empty(): (g: Graph)
    ensures g.Valid() && g.nodes == []
  {
    Graph([], map[], map[], map[])
  }

  // ---------------------------------------------------------------- edge iteration

  /** Edge iteration lists exactly the graph's edges whose source is in `ns`. */
  lemma {:induction false} EdgesFromMembers(g: Graph, ns: seq<string>, u: string, v: string)
    requires forall n :: n in ns ==> n in g.succ
    ensures (u, v) in g.EdgesFrom(ns) <==> u in ns && g.HasEdge(u, v)
  {
    if |ns| > 0 {
      EdgesFromMembers(g, ns[1..], u, v);
      var head := seq(|g.succ[ns[0]]|, i requires 0 <= i < |g.succ[ns[0]]| => (ns[0], g.succ[ns[0]][i]));
      assert g.EdgesFrom(ns) == head + g.EdgesFrom(ns[1..]);
      if u == ns[0] && g.HasEdge(u, v) {
        var i :| 0 <= i < |g.succ[u]| && g.succ[u][i] == v;
        assert head[i] == (u, v);
      }
    }
  }

  /** `G.edges()` holds exactly the graph's edges. */
  lemma EdgesMembers(g: Graph, u: string, v: string)
    requires g.Valid()
    ensures (u, v) in g.Edges() <==> g.HasEdge(u, v)
  {
    EdgesFromMembers(g, g.nodes, u, v);
  }

  /** The in-degree is zero exactly when no edge enters the node. */
  lemma {:induction false} InDegreeFromZero(g: Graph, ns: seq<string>, v: string)
    requires forall n :: n in ns ==> n in g.succ
    ensures g.InDegreeFrom(ns, v) == 0 <==> forall u :: u in ns ==> !g.HasEdge(u, v)
  {
    if |ns| > 0 {
      InDegreeFromZero(g, ns[1..], v);
    }
  }

  lemma InDegreeZero(g: Graph, v: string)
    requires g.Valid()
    ensures g.InDegree(v) == 0 <==> forall u :: !g.HasEdge(u, v)
  {
    InDegreeFromZero(g, g.nodes, v);
  }

  // ---------------------------------------------------------------- reachability

  /** One edge is a walk. */
  lemma ReachesEdge(g: Graph, u: string, v: string)
    requires g.HasEdge(u, v)
    ensures g.Reaches(u, v)
  {
    assert g.IsWalk([u, v]);
  }

  /** A walk extended by one edge is a walk. */
  lemma ReachesStep(g: Graph, s: string, u: string, v: string)
    requires g.Reaches(s, u) && g.HasEdge(u, v)
    ensures g.Reaches(s, v)
  {
    var p :| g.IsWalk(p) && |p| >= 2 && p[0] == s && p[|p| - 1] == u;
    var q := p + [v];
    assert forall i :: 0 <= i < |q| - 1 ==> q[i] == p[i] || i == |p| - 1;
    assert g.IsWalk(q);
  }

  /** An edge followed by a walk is a walk. */
  lemma ReachesPrepend(g: Graph, u: string, s: string, v: string)
    requires g.HasEdge(u, s) && g.Reaches(s, v)
    ensures g.Reaches(u, v)
  {
    var p :| g.IsWalk(p) && |p| >= 2 && p[0] == s && p[|p| - 1] == v;
    var q := [u] + p;
    assert forall i :: 1 <= i < |q| ==> q[i] == p[i - 1];
    assert g.IsWalk(q);
  }

  /** Every node of a walk that starts in a successor-closed set lies in that set. */
  lemma {:induction false} ClosedWalk(g: Graph, seen: set<string>, p: seq<string>, k: nat)
    requires g.IsWalk(p) && p[0] in seen && k < |p|
    requires forall u, v :: u in seen && g.HasEdge(u, v) ==> v in seen
    ensures p[k] in seen
  {
    if k > 0 {
      ClosedWalk(g, seen, p, k - 1);
      assert g.HasEdge(p[k - 1], p[k]);
    }
  }

  /** A successor-closed set holding `src` holds everything `src` reaches. */
  lemma ClosedReach(g: Graph, src: string, seen: set<string>)
    requires src in seen
    requires forall u, v :: u in seen && g.HasEdge(u, v) ==> v in seen
    ensures forall v :: g.Reaches(src, v) ==> v in seen
  {
    forall v | g.Reaches(src, v)
      ensures v in seen
    {
      var p :| g.IsWalk(p) && |p| >= 2 && p[0] == src && p[|p| - 1] == v;
      ClosedWalk(g, seen, p, |p| - 1);
    }
  }

  /** A cycle through `n` leaves `n` by some edge and comes back. */
  lemma ReachesSelf(g: Graph, n: string)
    ensures g.Reaches(n, n) <==> exists s :: g.HasEdge(n, s) && (s == n || g.Reaches(s, n))
  {
    if g.Reaches(n, n) {
      var p :| g.IsWalk(p) && |p| >= 2 && p[0] == n && p[|p| - 1] == n;
      assert g.HasEdge(n, p[1]);
      if |p| > 2 {
        var q := p[1..];
        assert forall i :: 0 <= i < |q| ==> q[i] == p[i + 1];
        assert g.IsWalk(q);
        assert g.Reaches(p[1], n);
      }
    }
    if exists s :: g.HasEdge(n, s) && (s == n || g.Reaches(s, n)) {
      var s :| g.HasEdge(n, s) && (s == n || g.Reaches(s, n));
      if s == n {
        ReachesEdge(g, n, n);
      } else {
        ReachesPrepend(g, n, s, n);
      }
    }
  }

  /** The closure invariant of the search: every node seen is `src` or reachable from it. */
  ghost predicate Sound(g: Graph, src: string, seen: set<string>) {
    forall x :: x in seen ==> x == src || g.Reaches(src, x)
  }

  /** Every node seen and no longer pending has all its successors seen. */
  ghost predicate Processed(g: Graph, seen: set<string>, work: set<string>) {
    forall u, v :: u in seen && u !in work && g.HasEdge(u, v) ==> v in seen
  }

  /** Marks the unseen successors of `u` as seen and pending. */
  method Expand(g: Graph, u: string, seen0: set<string>, work0: set<string>)
    returns (seen: set<string>, work: set<string>)
    requires u in g.succ
    ensures seen == seen0 + g.SuccSet(u)
    ensures work == (work0 - {u}) + (g.SuccSet(u) - seen0)
  {
    seen, work := seen0, work0 - {u};
    var ss := g.succ[u];
    var j := 0;
    while j < |ss|
      invariant 0 <= j <= |ss|
      invariant seen == seen0 + set k | 0 <= k < j :: ss[k]
      invariant work == (work0 - {u}) + ((set k | 0 <= k < j :: ss[k]) - seen0)
    {
      var v := ss[j];
      assert (set k | 0 <= k < j + 1 :: ss[k]) == (set k | 0 <= k < j :: ss[k]) + {v};
      if v !in seen {
        seen := seen + {v};
        work := work + {v};
      }
      j := j + 1;
    }
    assert (set k | 0 <= k < |ss| :: ss[k]) == g.SuccSet(u);
  }

  /** One expansion step keeps the search sound and processed, and lowers its measure. */
  lemma ExpandKeeps(g: Graph, src: string, u: string, seen0: set<string>, work0: set<string>)
    requires g.Closed() && u in seen0 && seen0 <= g.succ.Keys && work0 <= seen0 && u in work0
    requires Sound(g, src, seen0) && Processed(g, seen0, work0)
    ensures seen0 + g.SuccSet(u) <= g.succ.Keys
    ensures |g.succ.Keys - (seen0 + g.SuccSet(u))| + |(work0 - {u}) + (g.SuccSet(u) - seen0)|
            < |g.succ.Keys - seen0| + |work0|
    ensures Sound(g, src, seen0 + g.SuccSet(u))
    ensures Processed(g, seen0 + g.SuccSet(u), (work0 - {u}) + (g.SuccSet(u) - seen0))
  {
    var added := g.SuccSet(u) - seen0;
    assert seen0 + g.SuccSet(u) == seen0 + added;
    forall x | x in g.SuccSet(u)
      ensures x == src || g.Reaches(src, x)
    {
      if u == src {
        ReachesEdge(g, src, x);
      } else {
        ReachesStep(g, src, u, x);
      }
    }
    MeasureDrops(g.succ.Keys, seen0, added, work0, u);
    ProcessedAfter(g, u, seen0, work0, added);
  }

  /** A successor of a seen node may be seen too. */
  lemma SoundAdd(g: Graph, src: string, seen: set<string>, u: string, v: string)
    requires Sound(g, src, seen) && u in seen && g.HasEdge(u, v)
    ensures Sound(g, src, seen + {v})
  {
    if u == src {
      ReachesEdge(g, src, v);
    } else {
      ReachesStep(g, src, u, v);
    }
  }

  /** Once every successor of `u` is seen, `u` may leave the pending set. */
  lemma ProcessedAfter(g: Graph, u: string, seen0: set<string>, work0: set<string>, added: set<string>)
    requires Processed(g, seen0, work0) && added * seen0 == {} && u in seen0
    requires u in g.succ && forall v :: v in g.succ[u] ==> v in seen0 + added
    ensures Processed(g, seen0 + added, (work0 - {u}) + added)
  {
  }

  /** Adding to both the seen and the pending set as many nodes as were taken out keeps the measure falling. */
  lemma MeasureDrops(all: set<string>, seen0: set<string>, added: set<string>, work0: set<string>, u: string)
    requires seen0 + added <= all && u in work0 && work0 <= seen0 && added * seen0 == {}
    ensures |all - (seen0 + added)| + |(work0 - {u}) + added| < |all - seen0| + |work0|
  {
    assert all - seen0 == (all - (seen0 + added)) + added;
    assert (all - (seen0 + added)) * added == {};
    assert (work0 - {u}) * added == {};
  }

  /**
   * `nx.descendants(G, src)`: every node reachable from `src` by one or
   * more edges, never `src` itself, even on a cycle through `src`.
   */
  method Descendants(g: Graph, src: string) returns (r: set<string>)
    requires g.Closed() && g.HasNode(src)
    ensures forall v :: v in r <==> v != src && g.Reaches(src, v)
  {
    var seen: set<string> := {src};
    var work: set<string> := {src};
    while work != {}
      invariant seen <= g.succ.Keys && src in seen && work <= seen
      invariant Sound(g, src, seen) && Processed(g, seen, work)
      decreases |g.succ.Keys - seen| + |work|
    {
      assert work != {} ==> exists y :: y in work;
      var u :| u in work;
      ExpandKeeps(g, src, u, seen, work);
      seen, work := Expand(g, u, seen, work);
    }
    ClosedReach(g, src, seen);
    r := seen - {src};
  }

  /** `nx.is_directed_acyclic_graph(G)`: no node reaches itself. */
  method IsAcyclic(g: Graph) returns (b: bool)
    requires g.Valid()
    ensures b <==> forall n :: g.HasNode(n) ==> !g.Reaches(n, n)
  {
    var i := 0;
    while i < |g.nodes|
      invariant 0 <= i <= |g.nodes|
      invariant forall k :: 0 <= k < i ==> !g.Reaches(g.nodes[k], g.nodes[k])
    {
      var n := g.nodes[i];
      var ss := g.succ[n];
      var j := 0;
      while j < |ss|
        invariant 0 <= j <= |ss|
        invariant forall k :: 0 <= k < j ==> ss[k] != n && !g.Reaches(ss[k], n)
      {
        var s := ss[j];
        if s == n {
          ReachesEdge(g, n, n);
          return false;
        }
        var d := Descendants(g, s);
        if n in d {
          ReachesPrepend(g, n, s, n);
          return false;
        }
        j := j + 1;
      }
      ReachesSelf(g, n);
      i := i + 1;
    }
    b := true;
  }
}
