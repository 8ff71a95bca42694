/** Request and response bodies of the wire protocol, and the records the node emits. */
module Proto {
  import opened Types

  datatype InitReq = InitReq(msgType: string, nodeId: NodeId, nodeIds: seq<string>)

  datatype InitResp = InitResp(msgType: string)

  datatype EchoReq = EchoReq(msgType: string, echo: string)

  datatype EchoResp = EchoResp(msgType: string, echo: string)

  datatype TopologyReq = TopologyReq(msgId: MsgId, msgType: string, topology: map<NodeId, seq<NodeId>>)

  datatype ReadReq = ReadReq(msgId: MsgId)

  datatype BroadcastReq = BroadcastReq(msgId: MsgId, msgType: string, message: MsgValue)

  /** The acknowledgement body: only `in_reply_to` is read. */
  datatype AckReq = AckReq(inReplyTo: MsgId)

  /** The decoded JSON value a dispatcher hands to a handler; a body of another
      shape than the handler expects stands for a decoding failure. */
  datatype RequestBody =
    | InitBody(init: InitReq)
    | EchoBody(echo: EchoReq)
    | TopologyBody(topology: TopologyReq)
    | ReadBody(read: ReadReq)
    | ReplicateBody

  datatype RespBody =
    | BroadcastOk(msgType: string)
    | TopologyOk(msgType: string)
    | ReadOk(msgType: string, messages: seq<MsgValue>)

  /** What goes on the wire: a cached serialized body re-sent verbatim (`communicate`
      with `Comm`), or a response correlated to a request id (`reply`). */
  datatype Payload =
    | Comm(raw: string)
    | Response(inReplyTo: MsgId, body: RespBody)

  datatype Outbound = Outbound(dest: NodeId, payload: Payload)
}
