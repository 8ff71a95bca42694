/** Identifiers, the optional and failure wrappers, and the node's error taxonomy. */
module Types {

  datatype Option<+T> = None | Some(value: T)

  /** A handler either completes or stops on one of the conditions that panic in the node. */
  datatype Error =
    | MissingNodeId          // `node_id.unwrap()` before `init` was processed
    | MissingTopologyRow     // the topology map has no row for this node
    | MalformedBody          // the body does not decode into the handler's request shape
    | UnmatchedMessageType   // `dispatch_request` has no arm for the type string

  datatype Outcome = Pass | Fail(error: Error)

  datatype Result<+T> = Ok(value: T) | Err(error: Error)

  type NodeId = string

  /** Message ids and correlation ids; their machine width is not part of this model. */
  type MsgId = int

  type CommId = int

  /** The value a broadcast disseminates. */
  type MsgValue = int
}
