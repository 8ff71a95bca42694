/** The echo handler: a response built from the request's `echo` field alone. */
module Echo {
  import opened Proto
  import opened Routes

  function ProcessEcho(req: EchoReq): (resp: EchoResp)
    ensures resp.msgType == EchoOkType
    ensures resp.echo == req.echo
  {
    EchoResp(EchoOkType, req.echo)
  }

  /** The response does not depend on the request's own `type` field. */
  lemma EchoIgnoresRequestType(a: EchoReq, b: EchoReq)
    requires a.echo == b.echo
    ensures ProcessEcho(a) == ProcessEcho(b)
  {
  }
}
