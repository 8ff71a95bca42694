/** The first node iteration: an object holding only its id, answering `init` and
    `echo`; every response envelope is written to `written`. */
module EarlyNode {
  import opened Types
  import opened Proto
  import opened Routes
  import Echo

  datatype BaseReq = InitReqBody(init: InitReq) | EchoReqBody(echo: EchoReq)

  datatype BodyReq = BodyReq(body: BaseReq, msgId: MsgId)

  datatype Req = Req(id: int, src: NodeId, dest: NodeId, body: BodyReq)

  datatype BaseResp = InitRespBody(init: InitResp) | EchoRespBody(echo: EchoResp)

  datatype BodyResp = BodyResp(body: BaseResp, msgId: MsgId, inReplyTo: Option<MsgId>)

  datatype Resp = Resp(src: NodeId, dest: NodeId, body: BodyResp)

  /** The `msg_id` every handler puts on its response body. */
  const HandlerMsgId: MsgId := 1

  /** `process_echo`: the echo route's response, with the fixed id and no correlation yet. */
  function ProcessEcho(req: EchoReq): (r: BodyResp)
    ensures r.body.EchoRespBody? && r.body.echo.msgType == EchoOkType && r.body.echo.echo == req.echo
    ensures r.msgId == 1 && r.inReplyTo == None
  {
    BodyResp(EchoRespBody(Echo.ProcessEcho(req)), HandlerMsgId, None)
  }

  /** The body `reply` sends: only `in_reply_to` is filled in, from the request's `msg_id`. */
  function ReplyBody(req: Req, body: BodyResp): (r: BodyResp)
    ensures r.inReplyTo == Some(req.body.msgId)
    ensures r.body == body.body && r.msgId == body.msgId
  {
    body.(inReplyTo := Some(req.body.msgId))
  }

  class Node {
    var nodeId: Option<NodeId>
    var nodeIds: seq<string>
    var written: seq<Resp>

    constructor ()
      ensures nodeId == None && nodeIds == [] && written == []
    {
      nodeId := None;
      nodeIds := [];
      written := [];
    }

    /** `process_init`: records the node id and answers `init_ok`. */
    method ProcessInit(req: InitReq) returns (resp: BodyResp)
      modifies this`nodeId
      ensures nodeId == Some(req.nodeId)
      ensures resp == BodyResp(InitRespBody(InitResp(InitOkType)), 1, None)
    {
      nodeId := Some(req.nodeId);
      resp := BodyResp(InitRespBody(InitResp(InitOkType)), HandlerMsgId, None);
    }

    /** `send`: the envelope's source is this node's id, which must be set. */
    method Send(dest: NodeId, body: BodyResp) returns (outcome: Outcome)
      modifies this`written
      ensures nodeId.None? ==> outcome == Fail(MissingNodeId) && written == old(written)
      ensures nodeId.Some? ==> outcome == Pass && written == old(written) + [Resp(nodeId.value, dest, body)]
    {
      if nodeId.None? {
        outcome := Fail(MissingNodeId);
        return;
      }
      written := written + [Resp(nodeId.value, dest, body)];
      outcome := Pass;
    }

    /** `reply`: correlates the body to the request and addresses the request's source. */
    method Reply(req: Req, body: BodyResp) returns (outcome: Outcome)
      modifies this`written
      ensures nodeId.None? ==> outcome == Fail(MissingNodeId) && written == old(written)
      ensures nodeId.Some? ==>
                outcome == Pass && written == old(written) + [Resp(nodeId.value, req.src, ReplyBody(req, body))]
    {
      outcome := Send(req.src, ReplyBody(req, body));
    }

    /** `process_request`: handles one decoded request and replies to it. */
    method ProcessRequest(req: Req) returns (outcome: Outcome)
      modifies this`nodeId, this`written
      ensures req.body.body.InitReqBody? ==> nodeId == Some(req.body.body.init.nodeId)
      ensures req.body.body.EchoReqBody? ==> nodeId == old(nodeId)
      ensures nodeId.None? ==> outcome == Fail(MissingNodeId) && written == old(written)
      ensures nodeId.Some? ==>
                outcome == Pass &&
                written == old(written) + [Resp(nodeId.value, req.src, ReplyBody(req,
                  match req.body.body
                  case InitReqBody(_) => BodyResp(InitRespBody(InitResp(InitOkType)), 1, None)
                  case EchoReqBody(e) => ProcessEcho(e)))]
    {
      var resp: BodyResp;
      match req.body.body {
        case InitReqBody(init) =>
          resp := ProcessInit(init);
        case EchoReqBody(echo) =>
          resp := ProcessEcho(echo);
      }
      outcome := Reply(req, resp);
    }
  }

  /** Answering `init` to a fresh node and then `echo "hi"`: the echo comes back from the
      new id, correlated to the echo request, and carries the same string. */
  method InitThenEcho(init: InitReq, a: NodeId, b: NodeId)
  {
    var n := new Node();
    var r1 := n.ProcessRequest(Req(0, a, init.nodeId, BodyReq(InitReqBody(init), 7)));
    assert r1 == Pass;
    var echo := EchoReq("echo", "hi");
    var r2 := n.ProcessRequest(Req(1, b, init.nodeId, BodyReq(EchoReqBody(echo), 8)));
    assert r2 == Pass;
    assert n.written[1] == Resp(init.nodeId, b, BodyResp(EchoRespBody(EchoResp("echo_ok", "hi")), 1, Some(8)));
  }
}
