/** Route names (`get_route_*`) and the dispatcher's match on the type string. */
module Routes {
  import opened Types

  datatype Handler = InitRoute | EchoRoute | TopologyRoute | ReadRoute | ReplicateRoute

  /** The type string each handler is registered under. */
  function RouteName(h: Handler): string
  {
    match h
    case InitRoute => "init"
    case EchoRoute => "echo"
    case TopologyRoute => "topology"
    case ReadRoute => "read"
    case ReplicateRoute => "replicate"
  }

  /** The dispatcher's match: exact string comparison, no default arm. */
  function Route(msgType: string): (r: Option<Handler>)
    ensures r.Some? ==> RouteName(r.value) == msgType
    ensures r.None? ==> forall h: Handler :: RouteName(h) != msgType
  {
    if msgType == "init" then Some(InitRoute)
    else if msgType == "echo" then Some(EchoRoute)
    else if msgType == "topology" then Some(TopologyRoute)
    else if msgType == "read" then Some(ReadRoute)
    else if msgType == "replicate" then Some(ReplicateRoute)
    else None
  }

  /** Every registered name is routed back to its own handler. */
  lemma RouteNameIsRouted(h: Handler)
    ensures Route(RouteName(h)) == Some(h)
  {
  }

  /** Distinct handlers are registered under distinct names. */
  lemma RouteNamesDistinct(h: Handler, g: Handler)
    ensures RouteName(h) == RouteName(g) <==> h == g
  {
    RouteNameIsRouted(h);
    RouteNameIsRouted(g);
  }

  const RouteBroadcastOk: string := "broadcast_ok"

  const InitOkType: string := "init_ok"
  const EchoOkType: string := "echo_ok"
  const TopologyOkType: string := "topology_ok"
  const ReadOkType: string := "read_ok"
}
