/**
 * The directed weighted graph every graph store keeps in Redis: a set of
 * nodes and, per source node, a hash from target node to weight. These are
 * the pure updates the stores apply to their edge tables; the store classes
 * hold the state and call them.
 */
module Graph {
  import opened Wrappers
  import opened Schemas

  /** Per source node, the weights of its outgoing edges. */
  type EdgeTable = map<Node, map<Node, real>>

  /** The weight stored for `from -> to`, if any. */
  function Weight(edges: EdgeTable, from: Node, to: Node): Option<real>
  {
    if from in edges && to in edges[from] then Some(edges[from][to]) else None
  }

  /** `hset(keyForNode(from), to, value)`: sets or overwrites one weight. */
  function SetWeight(edges: EdgeTable, from: Node, to: Node, value: real): (r: EdgeTable)
    ensures Weight(r, from, to) == Some(value)
    ensures forall a, b | a != from || b != to :: Weight(r, a, b) == Weight(edges, a, b)
    ensures r.Keys == edges.Keys + {from}
  {
    var table := if from in edges then edges[from] else map[];
    edges[from := table[to := value]]
  }

  /** `hdel(keyForNode(from), to)`: deletes one weight, if present. */
  function DeleteWeight(edges: EdgeTable, from: Node, to: Node): (r: EdgeTable)
    ensures Weight(r, from, to) == None
    ensures forall a, b | a != from || b != to :: Weight(r, a, b) == Weight(edges, a, b)
    ensures r.Keys == edges.Keys
  {
    if from in edges then edges[from := edges[from] - {to}] else edges
  }

  /**
   * The `hdel(keyFor(other), node)` of `removeNode`, issued for every
   * `other` among `sources`: every edge from a source into `node` is deleted.
   */
  function WithoutIncoming(edges: EdgeTable, sources: set<Node>, node: Node): (r: EdgeTable)
    ensures forall a, b :: Weight(r, a, b) == if a in sources && b == node then None else Weight(edges, a, b)
    ensures r.Keys == edges.Keys
  {
    map a | a in edges :: if a in sources then edges[a] - {node} else edges[a]
  }

  /**
   * What `removeNode` does to the edge tables: the incoming edges from
   * `sources` (the node set read before the pipeline) and the node's own
   * table are deleted.
   */
  function WithoutNode(edges: EdgeTable, sources: set<Node>, node: Node): (r: EdgeTable)
    ensures forall a, b ::
      (Weight(r, a, b) == if a == node || (a in sources && b == node) then None else Weight(edges, a, b))
    ensures r.Keys == edges.Keys - {node}
  {
    WithoutIncoming(edges, sources, node) - {node}
  }

  /** The edges `listEdges` reports: every weight whose source is in the node set. */
  function ListedEdges(nodes: set<Node>, edges: EdgeTable): (r: set<Edge>)
    ensures forall e :: e in r <==> e.from in nodes && Weight(edges, e.from, e.to) == Some(e.value)
  {
    set a, b | a in nodes && a in edges && b in edges[a] :: Edge(a, b, edges[a][b])
  }

  /**
   * The invariant every store keeps: each edge table belongs to a node of
   * the set, and so does each edge's target.
   */
  ghost predicate Closed(nodes: set<Node>, edges: EdgeTable)
  {
    && edges.Keys <= nodes
    && forall a, b | Weight(edges, a, b).Some? :: b in nodes
  }

  /** Under `Closed`, listing sees every stored edge. */
  lemma ListedAllWhenClosed(nodes: set<Node>, edges: EdgeTable)
    requires Closed(nodes, edges)
    ensures forall e :: e in ListedEdges(nodes, edges) <==> Weight(edges, e.from, e.to) == Some(e.value)
    ensures forall e | e in ListedEdges(nodes, edges) :: e.from in nodes && e.to in nodes
  {
  }

  /** `setEdge` adds both endpoints before writing the weight, which keeps `Closed`. */
  lemma SetEdgeKeepsClosed(nodes: set<Node>, edges: EdgeTable, from: Node, to: Node, value: real)
    requires Closed(nodes, edges)
    ensures Closed(nodes + {from, to}, SetWeight(edges, from, to, value))
  {
  }

  /** `removeEdge` keeps `Closed`. */
  lemma DeleteEdgeKeepsClosed(nodes: set<Node>, edges: EdgeTable, from: Node, to: Node)
    requires Closed(nodes, edges)
    ensures Closed(nodes, DeleteWeight(edges, from, to))
  {
  }

  /**
   * `removeNode` keeps `Closed` because the incoming edges are deleted from
   * every member of the node set, and afterwards no edge touches the node.
   */
  lemma RemoveNodeKeepsClosed(nodes: set<Node>, edges: EdgeTable, node: Node)
    requires Closed(nodes, edges)
    ensures Closed(nodes - {node}, WithoutNode(edges, nodes, node))
    ensures forall a, b | Weight(WithoutNode(edges, nodes, node), a, b).Some? :: a != node && b != node
  {
  }

  /** Deleting the node set and the tables of its members leaves an empty graph. */
  lemma DeleteGraphEmpties(nodes: set<Node>, edges: EdgeTable)
    requires Closed(nodes, edges)
    ensures edges - nodes == map[]
  {
    assert (edges - nodes).Keys == {};
  }

  /** Writing the same weight twice is the same as writing it once. */
  lemma SetWeightIdempotent(edges: EdgeTable, from: Node, to: Node, value: real)
    ensures SetWeight(SetWeight(edges, from, to, value), from, to, value) == SetWeight(edges, from, to, value)
  {
    var once := SetWeight(edges, from, to, value);
    assert once[from][to := value] == once[from];
  }

  /** Deleting a weight just written restores every other weight. */
  lemma SetThenDelete(edges: EdgeTable, from: Node, to: Node, value: real)
    ensures forall a, b ::
      (Weight(DeleteWeight(SetWeight(edges, from, to, value), from, to), a, b)
       == Weight(DeleteWeight(edges, from, to), a, b))
  {
  }

  /** Every element of `s` occurs once. */
  ghost predicate NoDuplicates<T>(s: seq<T>)
  {
    forall i, j | 0 <= i < j < |s| :: s[i] != s[j]
  }

  lemma AppendNoDuplicates<T>(s: seq<T>, x: T)
    requires NoDuplicates(s) && x !in s
    ensures NoDuplicates(s + [x])
  {
    forall i, j | 0 <= i < j < |s + [x]|
      ensures (s + [x])[i] != (s + [x])[j]
    {
      if j == |s| {
        assert (s + [x])[i] == s[i];
      }
    }
  }

  /** `smembers`: the members of a set, each once, in some order. */
  method Members(nodes: set<Node>) returns (r: seq<Node>)
    ensures forall n :: n in r <==> n in nodes
    ensures NoDuplicates(r)
  {
    r := [];
    var rest := nodes;
    while rest != {}
      invariant rest <= nodes
      invariant forall n :: n in r <==> n in nodes - rest
      invariant NoDuplicates(r)
      decreases |rest|
    {
      var n :| n in rest;
      AppendNoDuplicates(r, n);
      r := r + [n];
      rest := rest - {n};
    }
  }

  /**
   * The loop of `removeNode` that deletes `node` from the edge table of
   * every member of the node set read beforehand.
   */
  method DropIncoming(edges: EdgeTable, sources: set<Node>, node: Node) returns (r: EdgeTable)
    ensures r == WithoutIncoming(edges, sources, node)
  {
    r := edges;
    var done: set<Node> := {};
    var rest := sources;
    while rest != {}
      invariant rest <= sources && done == sources - rest
      invariant r == WithoutIncoming(edges, done, node)
      decreases |rest|
    {
      var other :| other in rest;
      WithoutIncomingStep(edges, done, other, node);
      r := DeleteWeight(r, other, node);
      done := done + {other};
      rest := rest - {other};
    }
  }

  lemma WithoutIncomingStep(edges: EdgeTable, done: set<Node>, other: Node, node: Node)
    ensures DeleteWeight(WithoutIncoming(edges, done, node), other, node) == WithoutIncoming(edges, done + {other}, node)
  {
    var lhs, rhs := DeleteWeight(WithoutIncoming(edges, done, node), other, node), WithoutIncoming(edges, done + {other}, node);
    forall a | a in lhs
      ensures lhs[a] == rhs[a]
    {
      if a == other && a in done {
        assert edges[a] - {node} - {node} == edges[a] - {node};
      }
    }
  }

  /**
   * The loops of `listEdges`: for every member of the node set, every
   * (target, weight) pair of its table, read back as an edge. A missing
   * table reads as an empty hash.
   */
  method ListEdgesOf(nodes: set<Node>, edges: EdgeTable) returns (r: seq<Edge>)
    ensures forall e :: e in r <==> e in ListedEdges(nodes, edges)
    ensures NoDuplicates(r)
  {
    var order := Members(nodes);
    r := [];
    var i := 0;
    while i < |order|
      invariant 0 <= i <= |order|
      invariant forall e :: e in r <==> e.from in order[..i] && Weight(edges, e.from, e.to) == Some(e.value)
      invariant NoDuplicates(r)
    {
      var from := order[i];
      var neighbors: map<Node, real> := if from in edges then edges[from] else map[];
      var seen: set<Node> := {};
      while seen != neighbors.Keys
        invariant seen <= neighbors.Keys
        invariant forall e :: e in r <==>
          (e.from in order[..i] && Weight(edges, e.from, e.to) == Some(e.value))
          || (e.from == from && e.to in seen && e.value == neighbors[e.to])
        invariant NoDuplicates(r)
        decreases |neighbors.Keys - seen|
      {
        var to :| to in neighbors.Keys - seen;
        var edge := Edge(from, to, neighbors[to]);
        assert from !in order[..i] by {
          assert order[i] == from;
        }
        AppendNoDuplicates(r, edge);
        r := r + [edge];
        seen := seen + {to};
      }
      assert order[..i + 1] == order[..i] + [from];
      i := i + 1;
    }
    assert order[..i] == order;
  }
}
