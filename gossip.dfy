/** The gossip handler's effect on the dedup store and the ledger, as a function of
    the state before the call: dedup, fan-out to every neighbour except the sender,
    and the conditional `broadcast_ok` reply. */
module Gossip {
  import opened Types
  import opened Proto
  import opened Codec
  import opened Ledger
  import opened Routes

  /** The ledger entries one broadcast caches, neighbour by neighbour in list order;
      the key reuses the inbound message id. */
  function FanOut(neighbors: seq<NodeId>, src: NodeId, msgId: MsgId, cached: MsgCached): Pending
    decreases |neighbors|
  {
    if neighbors == [] then map[]
    else
      var entries := FanOut(neighbors[..|neighbors| - 1], src, msgId, cached);
      var n := neighbors[|neighbors| - 1];
      if n == src then entries else entries[MsgCachedKey(msgId, n) := cached]
  }

  /** Fan-out caches exactly one entry per neighbour other than the sender, all with the same text. */
  lemma {:induction false} FanOutEntries(neighbors: seq<NodeId>, src: NodeId, msgId: MsgId, cached: MsgCached)
    ensures forall k :: k in FanOut(neighbors, src, msgId, cached) <==>
              k.msgId == msgId && k.dest in neighbors && k.dest != src
    ensures forall k :: k in FanOut(neighbors, src, msgId, cached) ==>
              FanOut(neighbors, src, msgId, cached)[k] == cached
    decreases |neighbors|
  {
    if neighbors != [] {
      var init := neighbors[..|neighbors| - 1];
      FanOutEntries(init, src, msgId, cached);
      assert forall n :: n in neighbors <==> n in init || n == neighbors[|neighbors| - 1];
    }
  }

  /** One relay under one id to two neighbours gives two ledger entries, and the
      acknowledgement of one of them leaves the other pending. */
  lemma SameIdTwoDestinations(neighbors: seq<NodeId>, src: NodeId, msgId: MsgId, cached: MsgCached, d1: NodeId, d2: NodeId)
    requires d1 in neighbors && d2 in neighbors && d1 != src && d2 != src && d1 != d2
    ensures var entries := FanOut(neighbors, src, msgId, cached);
            && MsgCachedKey(msgId, d1) in entries && MsgCachedKey(msgId, d2) in entries
            && MsgCachedKey(msgId, d1) != MsgCachedKey(msgId, d2)
            && MsgCachedKey(msgId, d2) in entries - {MsgCachedKey(msgId, d1)}
  {
    FanOutEntries(neighbors, src, msgId, cached);
  }

  datatype GossipState = GossipState(messages: set<MsgValue>, pending: Pending)

  datatype GossipStep = GossipStep(state: GossipState, replies: seq<Outbound>)

  function BroadcastOkReply(src: NodeId, req: BroadcastReq): Outbound
  {
    Outbound(src, Response(req.msgId, BroadcastOk(RouteBroadcastOk)))
  }

  /** One `broadcast` received from `src`, with `neighbors` the current neighbour list. */
  function OnBroadcast(st: GossipState, neighbors: seq<NodeId>, commId: Option<CommId>, src: NodeId, req: BroadcastReq): GossipStep
  {
    if req.message in st.messages then GossipStep(st, [])
    else
      var entries := FanOut(neighbors, src, req.msgId, MsgCached(Serialize(req)));
      GossipStep(GossipState(st.messages + {req.message}, st.pending + entries),
                 if commId.Some? then [BroadcastOkReply(src, req)] else [])
  }

  /** An already-seen value changes nothing and is not answered. */
  lemma DuplicateIgnored(st: GossipState, neighbors: seq<NodeId>, commId: Option<CommId>, src: NodeId, req: BroadcastReq)
    requires req.message in st.messages
    ensures OnBroadcast(st, neighbors, commId, src, req) == GossipStep(st, [])
  {
  }

  /** A new value is stored, and every neighbour except the sender gets a ledger entry
      under the inbound id holding the serialized request; all other entries stay. */
  lemma NewValueStoredAndFannedOut(st: GossipState, neighbors: seq<NodeId>, commId: Option<CommId>, src: NodeId, req: BroadcastReq)
    requires req.message !in st.messages
    ensures var after := OnBroadcast(st, neighbors, commId, src, req).state;
            && after.messages == st.messages + {req.message}
            && (forall n :: n in neighbors && n != src ==>
                  MsgCachedKey(req.msgId, n) in after.pending &&
                  after.pending[MsgCachedKey(req.msgId, n)] == MsgCached(Serialize(req)))
            && (forall k :: k in st.pending && (k.msgId != req.msgId || k.dest !in neighbors || k.dest == src) ==>
                  k in after.pending && after.pending[k] == st.pending[k])
            && (forall k :: k in after.pending ==> k in st.pending || (k.msgId == req.msgId && k.dest in neighbors))
  {
    FanOutEntries(neighbors, src, req.msgId, MsgCached(Serialize(req)));
  }

  /** Nothing is created or changed for the sender: its entry, if any, is the one it had before. */
  lemma SenderUntouched(st: GossipState, neighbors: seq<NodeId>, commId: Option<CommId>, src: NodeId, req: BroadcastReq)
    ensures var after := OnBroadcast(st, neighbors, commId, src, req).state;
            var k := MsgCachedKey(req.msgId, src);
            (k in after.pending <==> k in st.pending) &&
            (k in st.pending ==> after.pending[k] == st.pending[k])
  {
    FanOutEntries(neighbors, src, req.msgId, MsgCached(Serialize(req)));
  }

  /** A `broadcast_ok` goes out, to the sender and correlated to the request's id,
      exactly when the value is new and the request carried a correlation id. */
  lemma ReplyIffCorrelated(st: GossipState, neighbors: seq<NodeId>, commId: Option<CommId>, src: NodeId, req: BroadcastReq)
    ensures var replies := OnBroadcast(st, neighbors, commId, src, req).replies;
            (replies != [] <==> commId.Some? && req.message !in st.messages) &&
            (replies != [] ==> replies == [Outbound(src, Response(req.msgId, BroadcastOk("broadcast_ok")))])
  {
  }

  /** Receiving the same broadcast twice leaves the state of receiving it once. */
  lemma Idempotent(st: GossipState, neighbors: seq<NodeId>, commId: Option<CommId>, src: NodeId, req: BroadcastReq,
                   neighbors': seq<NodeId>, commId': Option<CommId>, src': NodeId)
    ensures var once := OnBroadcast(st, neighbors, commId, src, req).state;
            OnBroadcast(once, neighbors', commId', src', req) == GossipStep(once, [])
  {
  }

  /** Because the key reuses the inbound id, a second value relayed under the same id to
      the same neighbour replaces the first one's pending entry. Caching never sends, so
      if no retry pass ran in between, no entry for that neighbour holds the first
      value's text any more: the first value is never relayed to it. */
  lemma SameIdOverwrites(st: GossipState, neighbors: seq<NodeId>, src: NodeId, req1: BroadcastReq, req2: BroadcastReq, n: NodeId)
    requires req1.msgId == req2.msgId && req1.message != req2.message
    requires req1.message !in st.messages && req2.message !in st.messages
    requires n in neighbors && n != src
    requires forall k :: k in st.pending && k.dest == n ==> st.pending[k] != MsgCached(Serialize(req1))
    ensures var s1 := OnBroadcast(st, neighbors, None, src, req1).state;
            var s2 := OnBroadcast(s1, neighbors, None, src, req2).state;
            && MsgCachedKey(req1.msgId, n) in s2.pending
            && s2.pending[MsgCachedKey(req1.msgId, n)] == MsgCached(Serialize(req2))
            && (forall k :: k in s2.pending && k.dest == n ==> s2.pending[k] != MsgCached(Serialize(req1)))
  {
    NewValueStoredAndFannedOut(st, neighbors, None, src, req1);
    var s1 := OnBroadcast(st, neighbors, None, src, req1).state;
    NewValueStoredAndFannedOut(s1, neighbors, None, src, req2);
    var s2 := OnBroadcast(s1, neighbors, None, src, req2).state;
    SerializeInjective(req1, req2);
    forall k | k in s2.pending && k.dest == n
      ensures s2.pending[k] != MsgCached(Serialize(req1))
    {
      if k.msgId == req1.msgId {
        assert s2.pending[k] == MsgCached(Serialize(req2));
      } else {
        assert k in s1.pending && s2.pending[k] == s1.pending[k];
        assert k in st.pending && s1.pending[k] == st.pending[k];
      }
    }
  }
}
