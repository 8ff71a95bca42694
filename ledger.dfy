/** The delivery ledger: pending sends keyed by (message id, destination), each holding
    the exact text that was cached, and the batch of sends one retry pass issues. */
module Ledger {
  import opened Types
  import opened Proto

  /** Keys compare on both fields, so one message id sent to two nodes gives two keys. */
  datatype MsgCachedKey = MsgCachedKey(msgId: MsgId, dest: NodeId)

  datatype MsgCached = MsgCached(msgStr: string)

  type Pending = map<MsgCachedKey, MsgCached>

  /** The send a retry pass issues for one entry: the cached text, unchanged, to the key's destination. */
  function SendFor(p: Pending, k: MsgCachedKey): Outbound
    requires k in p
  {
    Outbound(k.dest, Comm(p[k].msgStr))
  }

  predicate InLedger(p: Pending, order: seq<MsgCachedKey>)
  {
    forall i :: 0 <= i < |order| ==> order[i] in p
  }

  /** `order` visits every key of `keys` exactly once (a map's iteration order). */
  ghost predicate Enumerates(order: seq<MsgCachedKey>, keys: set<MsgCachedKey>)
  {
    && (forall i, j :: 0 <= i < j < |order| ==> order[i] != order[j])
    && (forall k :: k in keys <==> k in order)
  }

  /** The sends of one retry pass that visits the ledger's keys in `order`. */
  function RetrySends(p: Pending, order: seq<MsgCachedKey>): seq<Outbound>
    requires InLedger(p, order)
    decreases |order|
  {
    if order == [] then []
    else RetrySends(p, order[..|order| - 1]) + [SendFor(p, order[|order| - 1])]
  }

  /** The i-th send of a pass is the cached text of the i-th visited entry, to its destination. */
  lemma {:induction false} RetrySendsAt(p: Pending, order: seq<MsgCachedKey>)
    requires InLedger(p, order)
    ensures |RetrySends(p, order)| == |order|
    ensures forall i :: 0 <= i < |order| ==>
              RetrySends(p, order)[i] == Outbound(order[i].dest, Comm(p[order[i]].msgStr))
    decreases |order|
  {
    if order != [] {
      var init := order[..|order| - 1];
      assert InLedger(p, init);
      RetrySendsAt(p, init);
    }
  }

  lemma {:induction false} DistinctLength(order: seq<MsgCachedKey>, keys: set<MsgCachedKey>)
    requires Enumerates(order, keys)
    ensures |order| == |keys|
    decreases |order|
  {
    if order != [] {
      var last := order[|order| - 1];
      var init := order[..|order| - 1];
      assert last !in init;
      assert Enumerates(init, keys - {last});
      DistinctLength(init, keys - {last});
    } else {
      assert keys == {};
    }
  }

  /** A full pass issues exactly one send per ledger entry, and every entry's send is among them. */
  lemma OnePassCoversLedger(p: Pending, order: seq<MsgCachedKey>)
    requires Enumerates(order, p.Keys)
    ensures InLedger(p, order)
    ensures |RetrySends(p, order)| == |p|
    ensures forall k :: k in p ==> SendFor(p, k) in RetrySends(p, order)
  {
    RetrySendsAt(p, order);
    DistinctLength(order, p.Keys);
    forall k | k in p
      ensures SendFor(p, k) in RetrySends(p, order)
    {
      var i :| 0 <= i < |order| && order[i] == k;
      assert RetrySends(p, order)[i] == SendFor(p, k);
    }
  }

  /** Once an entry has been acknowledged, a later pass does not re-send it (unless
      some other entry would produce the very same send). */
  lemma AckedEntryNotResent(p: Pending, k: MsgCachedKey, order: seq<MsgCachedKey>)
    requires k in p
    requires forall k' :: k' in p && k' != k ==> SendFor(p, k') != SendFor(p, k)
    requires Enumerates(order, (p - {k}).Keys)
    ensures InLedger(p - {k}, order)
    ensures SendFor(p, k) !in RetrySends(p - {k}, order)
  {
    var q := p - {k};
    RetrySendsAt(q, order);
    forall i | 0 <= i < |order|
      ensures RetrySends(q, order)[i] != SendFor(p, k)
    {
      assert order[i] in q && order[i] != k;
      assert SendFor(q, order[i]) == SendFor(p, order[i]);
    }
  }
}
