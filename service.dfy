/** The broadcast node: one object owning the node id, the neighbour list, the dedup
    store, the message-id counter and the pending-acknowledgement ledger, with one
    method per handler. Every send is appended to `outbox`. */
module Service {
  import opened Types
  import opened Proto
  import opened Routes
  import opened Codec
  import opened Ledger
  import opened Gossip
  import Echo
  import Topology
  import Read

  class MlstService {
    var nodeId: Option<NodeId>
    var neighborIds: seq<NodeId>
    var messages: set<MsgValue>
    var nextMsgId: MsgId
    var pending: Pending
    var outbox: seq<Outbound>
    /** The ids `NextMsgId` has handed out so far. */
    ghost var issued: set<MsgId>

    ghost predicate Valid()
      reads this
    {
      1 <= nextMsgId && forall id :: id in issued ==> 1 <= id < nextMsgId
    }

    constructor ()
      ensures Valid()
      ensures nodeId == None && neighborIds == [] && messages == {}
      ensures nextMsgId == 1 && pending == map[] && outbox == [] && issued == {}
    {
      nodeId := None;
      neighborIds := [];
      messages := {};
      nextMsgId := 1;
      pending := map[];
      outbox := [];
      issued := {};
    }

    /** Hands out the current counter value and advances it by one; no id is handed out twice. */
    method NextMsgId() returns (id: MsgId)
      requires Valid()
      modifies this`nextMsgId, this`issued
      ensures Valid()
      ensures id == old(nextMsgId) && nextMsgId == old(nextMsgId) + 1
      ensures 1 <= id && id !in old(issued) && issued == old(issued) + {id}
    {
      id := nextMsgId;
      nextMsgId := nextMsgId + 1;
      issued := issued + {id};
    }

    method SetNodeId(value: NodeId)
      modifies this`nodeId
      ensures nodeId == Some(value)
    {
      nodeId := Some(value);
    }

    method SetNeighborIds(values: seq<NodeId>)
      modifies this`neighborIds
      ensures neighborIds == values
    {
      neighborIds := values;
    }

    method StoreMessage(message: MsgValue)
      modifies this`messages
      ensures messages == old(messages) + {message}
    {
      messages := messages + {message};
    }

    method CheckMessage(message: MsgValue) returns (seen: bool)
      ensures seen <==> message in messages
    {
      seen := message in messages;
    }

    /** Records a pending send; only the given key changes. */
    method AckAwait(key: MsgCachedKey, cached: MsgCached)
      modifies this`pending
      ensures pending == old(pending)[key := cached]
    {
      pending := pending[key := cached];
    }

    /** Drops a pending send; a key that is absent is no error. */
    method AckDelivered(key: MsgCachedKey)
      modifies this`pending
      ensures pending == old(pending) - {key}
    {
      pending := pending - {key};
    }

    /** Caches the serialized body under (msgId, dest). Nothing is sent yet. */
    method AwaitCommunicate(msgId: MsgId, dest: NodeId, msg: BroadcastReq)
      modifies this`pending
      ensures pending == old(pending)[MsgCachedKey(msgId, dest) := MsgCached(Serialize(msg))]
    {
      AckAwait(MsgCachedKey(msgId, dest), MsgCached(Serialize(msg)));
    }

    /** One retry pass: re-sends every cached text unchanged, once per entry, in the
        map's (unspecified) iteration order `order`; the ledger is only read. */
    method RepeatUnacked() returns (ghost order: seq<MsgCachedKey>)
      modifies this`outbox
      ensures Enumerates(order, pending.Keys)
      ensures outbox == old(outbox) + RetrySends(pending, order)
    {
      var unacked := pending;
      var rest := unacked.Keys;
      var sends: seq<Outbound> := [];
      order := [];
      while rest != {}
        invariant rest <= unacked.Keys
        invariant forall k :: k in order <==> k in unacked && k !in rest
        invariant forall i, j :: 0 <= i < j < |order| ==> order[i] != order[j]
        invariant InLedger(unacked, order)
        invariant sends == RetrySends(unacked, order)
        decreases rest
      {
        var key :| key in rest;
        sends := sends + [Outbound(key.dest, Comm(unacked[key].msgStr))];
        order := order + [key];
        rest := rest - {key};
      }
      outbox := outbox + sends;
    }

    /** `reply`: a response correlated to `inReplyTo`, addressed to `dest`. */
    method Reply(inReplyTo: MsgId, dest: NodeId, body: RespBody)
      modifies this`outbox
      ensures outbox == old(outbox) + [Outbound(dest, Response(inReplyTo, body))]
    {
      outbox := outbox + [Outbound(dest, Response(inReplyTo, body))];
    }

    /** `process_broadcast`: dedup, store, cache one entry per neighbour except the
        sender under the inbound id, and answer only a correlated request. */
    method ProcessBroadcast(commId: Option<CommId>, src: NodeId, req: BroadcastReq)
      modifies this`messages, this`pending, this`outbox
      ensures var step := OnBroadcast(GossipState(old(messages), old(pending)), neighborIds, commId, src, req);
              && messages == step.state.messages
              && pending == step.state.pending
              && outbox == old(outbox) + step.replies
    {
      var seen := CheckMessage(req.message);
      if seen {
        return;
      }
      StoreMessage(req.message);
      var neighbors := neighborIds;
      var cached := MsgCached(Serialize(req));
      for i := 0 to |neighbors|
        invariant messages == old(messages) + {req.message}
        invariant outbox == old(outbox)
        invariant pending == old(pending) + FanOut(neighbors[..i], src, req.msgId, cached)
      {
        assert neighbors[..i + 1][..i] == neighbors[..i];
        if neighbors[i] == src {
          continue;
        }
        AwaitCommunicate(req.msgId, neighbors[i], req);
      }
      assert neighbors[..|neighbors|] == neighbors;
      if commId.None? {
        return;
      }
      Reply(req.msgId, src, BroadcastOk(RouteBroadcastOk));
    }

    /** `process_broadcast_ok`: the acknowledgement removes the entry (in_reply_to, src). */
    method ProcessBroadcastOk(src: NodeId, ack: AckReq)
      modifies this`pending
      ensures pending == old(pending) - {MsgCachedKey(ack.inReplyTo, src)}
    {
      AckDelivered(MsgCachedKey(ack.inReplyTo, src));
    }

    /** `process_topology`: keeps this node's own row, in order, and answers `topology_ok`. */
    method ProcessTopology(src: NodeId, req: TopologyReq) returns (outcome: Outcome)
      modifies this`neighborIds, this`outbox
      ensures match Topology.SelectRow(req.topology, nodeId)
              case Ok(row) =>
                && outcome == Pass
                && neighborIds == row
                && outbox == old(outbox) + [Outbound(src, Response(req.msgId, TopologyOk(TopologyOkType)))]
              case Err(e) =>
                && outcome == Fail(e)
                && neighborIds == old(neighborIds)
                && outbox == old(outbox)
    {
      var row := Topology.SelectRow(req.topology, nodeId);
      if row.Err? {
        outcome := Fail(row.error);
        return;
      }
      SetNeighborIds(row.value);
      Reply(req.msgId, src, TopologyOk(TopologyOkType));
      outcome := Pass;
    }

    /** `process_read`: answers `read_ok` listing every stored value once. */
    method ProcessRead(src: NodeId, req: ReadReq) returns (listed: seq<MsgValue>)
      modifies this`outbox
      ensures Read.Lists(listed, messages) && |listed| == |messages|
      ensures outbox == old(outbox) + [Outbound(src, Response(req.msgId, ReadOk(ReadOkType, listed)))]
    {
      listed := Read.Collect(messages);
      Reply(req.msgId, src, ReadOk(ReadOkType, listed));
    }

    /** `process_init` of the init route: records the node id; `node_ids` is not kept. */
    method ProcessInit(req: InitReq) returns (resp: InitResp)
      modifies this`nodeId
      ensures nodeId == Some(req.nodeId)
      ensures resp == InitResp(InitOkType)
    {
      SetNodeId(req.nodeId);
      resp := InitResp(InitOkType);
    }

    /** `dispatch_request`: routes by the exact type string; an unmatched string or a
        body that does not decode to the handler's shape fails with no effect. The
        results of the init and echo routes are discarded, as the dispatcher returns nothing. */
    method Dispatch(commId: Option<CommId>, msgType: string, src: NodeId, dest: NodeId, body: RequestBody)
      returns (outcome: Outcome)
      modifies this`nodeId, this`neighborIds, this`outbox
      ensures Route(msgType).None? ==>
                outcome == Fail(UnmatchedMessageType) &&
                unchanged(this`nodeId, this`neighborIds, this`outbox)
      ensures Route(msgType) == Some(InitRoute) ==>
                if body.InitBody? then
                  outcome == Pass && nodeId == Some(body.init.nodeId) && unchanged(this`neighborIds, this`outbox)
                else
                  outcome == Fail(MalformedBody) && unchanged(this`nodeId, this`neighborIds, this`outbox)
      ensures Route(msgType) == Some(EchoRoute) ==>
                outcome == (if body.EchoBody? then Pass else Fail(MalformedBody)) &&
                unchanged(this`nodeId, this`neighborIds, this`outbox)
      ensures Route(msgType) == Some(TopologyRoute) ==>
                if body.TopologyBody? then
                  match Topology.SelectRow(body.topology.topology, nodeId)
                  case Ok(row) =>
                    && outcome == Pass && neighborIds == row && unchanged(this`nodeId)
                    && outbox == old(outbox) + [Outbound(src, Response(body.topology.msgId, TopologyOk(TopologyOkType)))]
                  case Err(e) =>
                    outcome == Fail(e) && unchanged(this`nodeId, this`neighborIds, this`outbox)
                else
                  outcome == Fail(MalformedBody) && unchanged(this`nodeId, this`neighborIds, this`outbox)
      ensures Route(msgType) == Some(ReadRoute) ==>
                if body.ReadBody? then
                  && outcome == Pass && unchanged(this`nodeId, this`neighborIds)
                  && |outbox| == |old(outbox)| + 1 && outbox[..|old(outbox)|] == old(outbox)
                  && var sent := outbox[|old(outbox)|];
                     && sent.dest == src && sent.payload.Response?
                     && sent.payload.inReplyTo == body.read.msgId
                     && sent.payload.body.ReadOk? && sent.payload.body.msgType == ReadOkType
                     && Read.Lists(sent.payload.body.messages, messages)
                else
                  outcome == Fail(MalformedBody) && unchanged(this`nodeId, this`neighborIds, this`outbox)
      ensures Route(msgType) == Some(ReplicateRoute) ==>
                outcome == Pass && unchanged(this`nodeId, this`neighborIds, this`outbox)
    {
      var route := Route(msgType);
      match route
      case None =>
        outcome := Fail(UnmatchedMessageType);
      case Some(InitRoute) =>
        if body.InitBody? {
          var _ := ProcessInit(body.init);
          outcome := Pass;
        } else {
          outcome := Fail(MalformedBody);
        }
      case Some(EchoRoute) =>
        if body.EchoBody? {
          var _ := Echo.ProcessEcho(body.echo);
          outcome := Pass;
        } else {
          outcome := Fail(MalformedBody);
        }
      case Some(TopologyRoute) =>
        if body.TopologyBody? {
          outcome := ProcessTopology(src, body.topology);
        } else {
          outcome := Fail(MalformedBody);
        }
      case Some(ReadRoute) =>
        if body.ReadBody? {
          var _ := ProcessRead(src, body.read);
          outcome := Pass;
        } else {
          outcome := Fail(MalformedBody);
        }
      case Some(ReplicateRoute) =>
        // the replicate route is an empty stub
        outcome := Pass;
    }
  }
}

/** Node "a" of three fully connected nodes, in three steps: a client broadcasts 42
    and a retry pass relays it to "b" and "c"; once "b" acknowledges, the next pass
    relays it to "c" only; a second delivery of 42 changes nothing and a read lists
    42 once. */
module Scenario {
  import opened Types
  import opened Proto
  import opened Routes
  import opened Codec
  import opened Ledger
  import opened Gossip
  import opened Service

  method BroadcastAndRetry()
  {
    var s := new MlstService();
    var init := s.ProcessInit(InitReq("init", "a", ["a", "b", "c"]));
    var topology := map["a" := ["b", "c"], "b" := ["a", "c"], "c" := ["a", "b"]];
    var r := s.ProcessTopology("c1", TopologyReq(2, "topology", topology));
    assert r == Pass && s.neighborIds == ["b", "c"];
    assert s.outbox == [Outbound("c1", Response(2, TopologyOk("topology_ok")))];

    var req := BroadcastReq(3, "broadcast", 42);
    var cached := MsgCached(Serialize(req));
    s.ProcessBroadcast(Some(3), "c1", req);
    FanOutEntries(["b", "c"], "c1", 3, cached);
    assert s.pending == map[MsgCachedKey(3, "b") := cached, MsgCachedKey(3, "c") := cached];
    assert s.messages == {42};
    assert s.outbox[1] == Outbound("c1", Response(3, BroadcastOk("broadcast_ok")));

    ghost var before := s.outbox;
    ghost var order := s.RepeatUnacked();
    OnePassCoversLedger(s.pending, order);
    assert |s.outbox| == |before| + 2;
    assert Outbound("b", Comm(Serialize(req))) == SendFor(s.pending, MsgCachedKey(3, "b"));
    assert Outbound("c", Comm(Serialize(req))) == SendFor(s.pending, MsgCachedKey(3, "c"));
    assert Outbound("b", Comm(Serialize(req))) in s.outbox[|before|..];
    assert Outbound("c", Comm(Serialize(req))) in s.outbox[|before|..];
  }

  method AckThenRetry(s: MlstService, req: BroadcastReq)
    requires req.msgId == 3
    requires s.pending == map[MsgCachedKey(3, "b") := MsgCached(Serialize(req)), MsgCachedKey(3, "c") := MsgCached(Serialize(req))]
    modifies s
  {
    s.ProcessBroadcastOk("b", AckReq(3));
    assert "b" != "c" by { assert "b"[0] != "c"[0]; }
    assert s.pending.Keys == {MsgCachedKey(3, "c")};
    ghost var before := s.outbox;
    ghost var order := s.RepeatUnacked();
    OnePassCoversLedger(s.pending, order);
    RetrySendsAt(s.pending, order);
    assert |order| == 1 && order[0] in s.pending;
    assert order == [MsgCachedKey(3, "c")];
    assert s.outbox == before + [Outbound("c", Comm(Serialize(req)))];
  }

  method DuplicateThenRead(s: MlstService, req: BroadcastReq)
    requires req.message == 42 && s.messages == {42}
    modifies s
  {
    ghost var before := s.outbox;
    ghost var ledger := s.pending;
    s.ProcessBroadcast(None, "b", req);
    assert s.messages == {42} && s.pending == ledger && s.outbox == before;
    var listed := s.ProcessRead("c1", ReadReq(9));
    assert |listed| == 1 && listed[0] in s.messages;
    assert listed == [42];
  }
}
