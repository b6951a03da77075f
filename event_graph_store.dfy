/**
 * The oldest graph store (src/services/event/graph.ts), the one the event
 * service writes to: a Redis set of nodes, one hash of outgoing weights per
 * node and one hash of node locations. It has no edge listing, and
 * `setEdge` takes its three parts as separate arguments. Each `async`
 * method is one atomic update of the three fields.
 */
module EventGraphStore {
  import opened Wrappers
  import opened Schemas
  import opened Graph

  class GraphStore {
    var nodes: set<Node>
    var edges: EdgeTable
    var locations: map<Node, Location>

    /** Every edge table and every edge target is a member of the node set. */
    ghost predicate Valid()
      reads this
    {
      Closed(nodes, edges)
    }

    /** A store over whatever the Redis instance holds under this graph id. */
    constructor(nodes0: set<Node>, edges0: EdgeTable, locations0: map<Node, Location>)
      ensures nodes == nodes0 && edges == edges0 && locations == locations0
    {
      nodes, edges, locations := nodes0, edges0, locations0;
    }

    /** `addNode`: `sadd` on the node set. */
    method AddNode(node: Node)
      modifies this
      ensures nodes == old(nodes) + {node}
      ensures edges == old(edges) && locations == old(locations)
      ensures old(Valid()) ==> Valid()
    {
      nodes := nodes + {node};
    }

    /** `setNodeLocation`: stores the location of the node, replacing any earlier one. */
    method SetNodeLocation(node: Node, location: Location)
      modifies this
      ensures locations == old(locations)[node := location]
      ensures nodes == old(nodes) && edges == old(edges)
      ensures old(Valid()) ==> Valid()
    {
      locations := locations[node := location];
    }

    /** `getNodeLocation`: the last location stored for the node, or null. */
    method GetNodeLocation(node: Node) returns (r: Option<Location>)
      ensures r.Some? <==> node in locations
      ensures r.Some? ==> r.value == locations[node]
    {
      r := if node in locations then Some(locations[node]) else None;
    }

    /** `setEdge`: adds both endpoints, then sets or overwrites the weight `from -> to`. */
    method SetEdge(from: Node, to: Node, weight: real)
      modifies this
      ensures nodes == old(nodes) + {from, to}
      ensures edges == SetWeight(old(edges), from, to, weight)
      ensures locations == old(locations)
      ensures old(Valid()) ==> Valid()
    {
      AddNode(from);
      AddNode(to);
      if old(Valid()) {
        SetEdgeKeepsClosed(old(nodes), old(edges), from, to, weight);
      }
      edges := SetWeight(edges, from, to, weight);
    }

    /** `removeEdge`: deletes the weight `from -> to` only. */
    method RemoveEdge(from: Node, to: Node)
      modifies this
      ensures edges == DeleteWeight(old(edges), from, to)
      ensures nodes == old(nodes) && locations == old(locations)
      ensures old(Valid()) ==> Valid()
    {
      if Valid() {
        DeleteEdgeKeepsClosed(nodes, edges, from, to);
      }
      edges := DeleteWeight(edges, from, to);
    }

    /** `listNodes`: the members of the node set. */
    method ListNodes() returns (r: seq<Node>)
      ensures forall n :: n in r <==> n in nodes
      ensures NoDuplicates(r)
    {
      r := Members(nodes);
    }

    /**
     * `removeNode`: removes the node from the set, its incoming edges from
     * every member read beforehand, its own table and its location.
     */
    method RemoveNode(node: Node)
      modifies this
      ensures nodes == old(nodes) - {node}
      ensures edges == WithoutNode(old(edges), old(nodes), node)
      ensures locations == old(locations) - {node}
      ensures old(Valid()) ==> Valid()
      ensures forall a, b | Weight(edges, a, b).Some? :: a != node && (b == node ==> a !in old(nodes))
    {
      var allNodes := nodes;
      if Valid() {
        RemoveNodeKeepsClosed(nodes, edges, node);
      }
      nodes := nodes - {node};
      var kept := DropIncoming(edges, allNodes, node);
      edges := kept - {node};
      locations := locations - {node};
    }

    /**
     * `deleteGraph`: deletes the tables of the members and the node set;
     * the location hash is left as it is.
     */
    method DeleteGraph()
      modifies this
      ensures nodes == {}
      ensures edges == old(edges) - old(nodes)
      ensures locations == old(locations)
      ensures old(Valid()) ==> edges == map[] && Valid()
    {
      if Valid() {
        DeleteGraphEmpties(nodes, edges);
      }
      edges := edges - nodes;
      nodes := {};
    }
  }
}
