/** Selecting this node's own row from the topology map. */
module Topology {
  import opened Types

  /** The row for `self`; the lookup fails when the node id is unset or has no row. */
  function SelectRow(topology: map<NodeId, seq<NodeId>>, self: Option<NodeId>): (r: Result<seq<NodeId>>)
    ensures r.Ok? <==> self.Some? && self.value in topology
    ensures r.Ok? ==> r.value == topology[self.value]
    ensures self.None? ==> r == Err(MissingNodeId)
    ensures self.Some? && self.value !in topology ==> r == Err(MissingTopologyRow)
  {
    match self
    case None => Err(MissingNodeId)
    case Some(id) => if id in topology then Ok(topology[id]) else Err(MissingTopologyRow)
  }

  /** Rows for other nodes do not affect the selection. */
  lemma OtherRowsIgnored(t1: map<NodeId, seq<NodeId>>, t2: map<NodeId, seq<NodeId>>, id: NodeId)
    requires id in t1 <==> id in t2
    requires id in t1 ==> t1[id] == t2[id]
    ensures SelectRow(t1, Some(id)) == SelectRow(t2, Some(id))
  {
  }
}
