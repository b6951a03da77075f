/**
 * The current graph store (src/services/graph/store/index.ts): a Redis set
 * of nodes, one hash of outgoing weights per node and one hash of node
 * metadata. Each `async` method is one atomic update of the three fields.
 */
module MetadataStore {
  import opened Wrappers
  import opened Schemas
  import opened Graph

  /**
   * The metadata `listNodesMetadata` returns: the stored metadata of every
   * member of the node set that the metadata schema accepts.
   */
  function ListedMetadata(nodes: set<Node>, meta: map<Node, Metadata>): (r: map<Node, Metadata>)
    ensures forall n :: n in r <==> n in nodes && n in meta && MetadataAccepted(meta[n])
    ensures forall n | n in r :: r[n] == meta[n]
  {
    map n | n in nodes && n in meta && MetadataAccepted(meta[n]) :: meta[n]
  }

  /**
   * A member whose stored longitude lies beyond 90 degrees is left out of
   * `listNodesMetadata` (and so of `getEventGraph`); every listed location
   * lies within [-90, 90] on both coordinates.
   */
  lemma WideLongitudeNotListed(nodes: set<Node>, meta: map<Node, Metadata>, n: Node)
    requires n in nodes && n in meta
    requires meta[n].location.longitude < -90.0 || 90.0 < meta[n].location.longitude
    ensures n !in ListedMetadata(nodes, meta)
    ensures forall m | m in ListedMetadata(nodes, meta) ::
      -90.0 <= ListedMetadata(nodes, meta)[m].location.longitude <= 90.0 &&
      -90.0 <= ListedMetadata(nodes, meta)[m].location.latitude <= 90.0
  {
    LongitudeBeyondNinetyRefused(meta[n].location);
  }

  /** The metadata `setNodeLocation` writes: the new location, and the position kept if there was one. */
  function WithLocation(existing: Option<Metadata>, location: Location): (r: Metadata)
    ensures r.location == location
    ensures r.position == (if existing.Some? then existing.value.position else None)
  {
    Metadata(location, if existing.Some? then existing.value.position else None)
  }

  class GraphStore {
    var nodes: set<Node>
    var edges: EdgeTable
    var meta: map<Node, Metadata>

    /** Every edge table and every edge target is a member of the node set. */
    ghost predicate Valid()
      reads this
    {
      Closed(nodes, edges)
    }

    /** A store over whatever the Redis instance holds under this graph id. */
    constructor(nodes0: set<Node>, edges0: EdgeTable, meta0: map<Node, Metadata>)
      ensures nodes == nodes0 && edges == edges0 && meta == meta0
    {
      nodes, edges, meta := nodes0, edges0, meta0;
    }

    /** `addNode`: `sadd` on the node set. */
    method AddNode(node: Node)
      modifies this
      ensures nodes == old(nodes) + {node}
      ensures edges == old(edges) && meta == old(meta)
      ensures old(Valid()) ==> Valid()
    {
      nodes := nodes + {node};
    }

    /** `getNodeMetadata`: the stored metadata, or null. */
    method GetNodeMetadata(node: Node) returns (r: Option<Metadata>)
      ensures r.Some? <==> node in meta
      ensures r.Some? ==> r.value == meta[node]
    {
      r := if node in meta then Some(meta[node]) else None;
    }

    /** `setNodeLocation`: replaces the location and keeps any stored position. */
    method SetNodeLocation(node: Node, location: Location)
      modifies this
      ensures meta == old(meta)[node := WithLocation(if node in old(meta) then Some(old(meta)[node]) else None, location)]
      ensures nodes == old(nodes) && edges == old(edges)
      ensures old(Valid()) ==> Valid()
    {
      var existing := GetNodeMetadata(node);
      meta := meta[node := WithLocation(existing, location)];
    }

    /** `setNodePosition`: does nothing for a node without metadata, otherwise sets the position. */
    method SetNodePosition(node: Node, position: NodePosition)
      modifies this
      ensures node !in old(meta) ==> meta == old(meta)
      ensures node in old(meta) ==> meta == old(meta)[node := Metadata(old(meta)[node].location, Some(position))]
      ensures nodes == old(nodes) && edges == old(edges)
      ensures old(Valid()) ==> Valid()
    {
      var existing := GetNodeMetadata(node);
      if existing.None? {
        return;
      }
      meta := meta[node := Metadata(existing.value.location, Some(position))];
    }

    /**
     * `listNodesMetadata`: one lookup per member of the node set; missing
     * entries and entries the metadata schema rejects are skipped.
     */
    method ListNodesMetadata() returns (r: map<Node, Metadata>)
      ensures r == ListedMetadata(nodes, meta)
    {
      var order := Members(nodes);
      r := map[];
      var i := 0;
      while i < |order|
        invariant 0 <= i <= |order|
        invariant r == map n | n in order[..i] && n in meta && MetadataAccepted(meta[n]) :: meta[n]
      {
        var node := order[i];
        assert order[..i + 1] == order[..i] + [node];
        if node in meta && MetadataAccepted(meta[node]) {
          r := r[node := meta[node]];
        }
        i := i + 1;
      }
      assert order[..i] == order;
    }

    /** `setEdge`: adds both endpoints, then sets or overwrites the weight `from -> to`. */
    method SetEdge(edge: Edge)
      modifies this
      ensures nodes == old(nodes) + {edge.from, edge.to}
      ensures edges == SetWeight(old(edges), edge.from, edge.to, edge.value)
      ensures meta == old(meta)
      ensures old(Valid()) ==> Valid()
    {
      AddNode(edge.from);
      AddNode(edge.to);
      if old(Valid()) {
        SetEdgeKeepsClosed(old(nodes), old(edges), edge.from, edge.to, edge.value);
      }
      edges := SetWeight(edges, edge.from, edge.to, edge.value);
    }

    /** `removeEdge`: deletes the weight `from -> to` only. */
    method RemoveEdge(from: Node, to: Node)
      modifies this
      ensures edges == DeleteWeight(old(edges), from, to)
      ensures nodes == old(nodes) && meta == old(meta)
      ensures old(Valid()) ==> Valid()
    {
      if Valid() {
        DeleteEdgeKeepsClosed(nodes, edges, from, to);
      }
      edges := DeleteWeight(edges, from, to);
    }

    /** `listNodes`: the members of the node set. */
    method ListNodes() returns (r: seq<Node>)
      ensures forall n :: n in r <==> n in nodes
      ensures NoDuplicates(r)
    {
      r := Members(nodes);
    }

    /**
     * `removeNode`: removes the node from the set, its incoming edges from
     * every member read beforehand, its own table and its metadata.
     */
    method RemoveNode(node: Node)
      modifies this
      ensures nodes == old(nodes) - {node}
      ensures edges == WithoutNode(old(edges), old(nodes), node)
      ensures meta == old(meta) - {node}
      ensures old(Valid()) ==> Valid()
      ensures forall a, b | Weight(edges, a, b).Some? :: a != node && (b == node ==> a !in old(nodes))
    {
      var allNodes := nodes;
      if Valid() {
        RemoveNodeKeepsClosed(nodes, edges, node);
      }
      nodes := nodes - {node};
      var kept := DropIncoming(edges, allNodes, node);
      edges := kept - {node};
      meta := meta - {node};
    }

    /** `deleteGraph`: deletes the tables of the members, the node set and the metadata hash. */
    method DeleteGraph()
      modifies this
      ensures nodes == {} && meta == map[]
      ensures edges == old(edges) - old(nodes)
      ensures old(Valid()) ==> edges == map[] && Valid()
    {
      if Valid() {
        DeleteGraphEmpties(nodes, edges);
      }
      edges := edges - nodes;
      nodes := {};
      meta := map[];
    }

    /** `listEdges`: every weight whose source is a member of the node set, each once. */
    method ListEdges() returns (r: seq<Edge>)
      ensures forall e :: e in r <==> e.from in nodes && Weight(edges, e.from, e.to) == Some(e.value)
      ensures Valid() ==> forall e | e in r :: e.from in nodes && e.to in nodes
      ensures NoDuplicates(r)
    {
      r := ListEdgesOf(nodes, edges);
    }

    /**
     * `getEventGraph`: the listed metadata of the members of the node set,
     * with the listed edges.
     */
    method GetEventGraph() returns (g: EventGraph)
      ensures g.nodes == ListedMetadata(nodes, meta)
      ensures forall e :: e in g.edges <==> e in ListedEdges(nodes, edges)
      ensures NoDuplicates(g.edges)
    {
      var order := ListNodes();
      var edgeList := ListEdges();
      var metadata := ListNodesMetadata();
      var nodesWithMetadata: map<Node, Metadata> := map[];
      var i := 0;
      while i < |order|
        invariant 0 <= i <= |order|
        invariant nodesWithMetadata == map n | n in order[..i] && n in metadata :: metadata[n]
      {
        var node := order[i];
        assert order[..i + 1] == order[..i] + [node];
        if node in metadata {
          nodesWithMetadata := nodesWithMetadata[node := metadata[node]];
        }
        i := i + 1;
      }
      assert order[..i] == order;
      g := EventGraph(nodesWithMetadata, edgeList);
    }
  }

}
