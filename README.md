# Broadcast node of maelstrom-rust, modelled in Dafny

This project models one participant of a Maelstrom cluster, the node written in
`maelstrom-rust`. A class `Service.MlstService` holds the four pieces of state that
the Rust `MlstService` keeps behind its mutexes (`crdt_main.rs:45-50`):

- the node id, set by `init`;
- the neighbour list, set by `topology`;
- the dedup store of broadcast values;
- the message-id counter.

The Rust service has no ledger and implements neither the asynchronous-delivery trait
(`async_comm_node.rs`) nor the broadcast trait (`routes/broadcast.rs`); `crdt_main.rs`
does not even declare the broadcast route module. The model adds both traits to this
one service, so the class also holds:

- the pending-acknowledgement ledger. It maps a key (message id, destination) to the
  exact text that was cached for that destination.

Each handler is a method that updates this state. Every message the node sends is
appended to the field `outbox`. These are the handlers:

- `process_broadcast`: drops a value it has already seen, stores a new one, and caches
  one ledger entry per neighbour except the sender. It answers `broadcast_ok` only when
  the request carried a correlation id.
- `process_broadcast_ok`: removes one ledger entry.
- `repeat_unacked`: re-sends every cached text, unchanged, to its destination.
- `topology`, `read`, `init`, `echo`, and the dispatcher that routes on the exact type
  string.

The first node iteration (`node.rs`) is modelled as its own class, `EarlyNode.Node`. It
builds response envelopes from its own id, the request's source and the request's
`msg_id`.

Modules follow the source: `Types` and `Proto` hold the identifiers and message shapes.
`Codec` stands in for the JSON serializer. `Routes` holds the route names and the
dispatcher's match. `Echo`, `Topology` and `Read` hold the pure route logic. `Ledger`
holds the ledger keys and the sends of a retry pass. `Gossip` holds the broadcast
handler's effect as a function of the prior state. `Service` holds the node class, and
`EarlyNode` holds `node.rs`. The methods of `Scenario` walk through the three-node
example: one broadcast of 42 at node "a", a retry pass, an acknowledgement from "b",
another retry pass, a duplicate delivery, and a read.

In these places the model follows the code:

- A relayed broadcast is keyed by the inbound request's `msg_id` (`routes/broadcast.rs:28`),
  not by a fresh id. The lemma `Gossip.SameIdOverwrites` shows the consequence: two
  different values relayed under the same id to the same neighbour share one ledger key,
  and the second replaces the first.
- `await_communicate` only caches the text; it does not send it
  (`async_comm_node.rs:18-24`). A relay first goes on the wire at the next
  `repeat_unacked` pass.
- The dispatcher of `crdt_main.rs` has no arms for `broadcast` and `broadcast_ok`
  (`crdt_main.rs:109-117`). In the model they are separate entry points.
- A duplicate broadcast gets no reply, even when it carries a correlation id
  (`routes/broadcast.rs:18-20`).

## Model

| member | source | states |
|---|---|---|
| Service.MlstService.constructor | maelstrom-rust/src/crdt_main.rs:53-60 | a new service has no node id, no neighbours, no messages, an empty ledger and the counter at 1 |
| Service.MlstService.NextMsgId | maelstrom-rust/src/crdt_main.rs:120-125 | returns the current counter value and advances it by one; the returned id is at least 1 and was never handed out before |
| Service.MlstService.SetNodeId | maelstrom-rust/src/crdt_main.rs:131-133 | the node id becomes `Some(value)`, whatever it was before (last write wins), and nothing else changes |
| Service.MlstService.SetNeighborIds | maelstrom-rust/src/crdt_main.rs:135-137 | the neighbour list is replaced by the given list, in its order, and nothing else changes |
| Service.MlstService.StoreMessage | maelstrom-rust/src/crdt_main.rs:143-145 | the message set gains the value; storing a value already present leaves the set as it was |
| Service.MlstService.CheckMessage | maelstrom-rust/src/crdt_main.rs:147-149 | answers whether the value is in the message set, and modifies nothing |
| Routes.Route | maelstrom-rust/src/crdt_main.rs:109-117 | a routed type string is exactly the registered name of the handler it selects; a string that names no handler is not routed |
| Routes.RouteNameIsRouted | maelstrom-rust/src/crdt_main.rs:67-97 | the name each `get_route_*` returns is routed back to that same handler |
| Routes.RouteNamesDistinct | maelstrom-rust/src/crdt_main.rs:67-97 | two handlers share a route name only if they are the same handler |
| Service.MlstService.Dispatch | maelstrom-rust/src/crdt_main.rs:101-118 | "init", "echo", "topology", "read" and "replicate" reach their handlers with the handler's own effect; any other string fails as unmatched and a body of the wrong shape fails as malformed, both with no effect |
| Service.MlstService.AckAwait | maelstrom-rust/src/async_comm_node.rs:38 | the ledger maps the key to the cached text, and every other key keeps its entry |
| Service.MlstService.AckDelivered | maelstrom-rust/src/async_comm_node.rs:40 | the key is no longer in the ledger, every other entry is kept, and removing an absent key is no error |
| Service.MlstService.AwaitCommunicate | maelstrom-rust/src/async_comm_node.rs:18-24 | the ledger maps (msg_id, dest) to the serialization of the message, no other key changes, and nothing is sent |
| Gossip.SameIdTwoDestinations | maelstrom-rust/src/async_comm_node.rs:11-15 | a relay under one id to two different neighbours creates two distinct entries, and removing one of them (its acknowledgement) leaves the other pending |
| Service.MlstService.RepeatUnacked | maelstrom-rust/src/async_comm_node.rs:26-34 | a pass visits every ledger key exactly once, in some order, and appends that order's sends to the outbox; the ledger is left unchanged |
| Ledger.RetrySendsAt | maelstrom-rust/src/async_comm_node.rs:28-32 | the i-th send of a pass goes to the i-th entry's destination and carries that entry's cached text unchanged |
| Ledger.OnePassCoversLedger | maelstrom-rust/src/async_comm_node.rs:26-33 | a full pass issues exactly as many sends as there are entries, and every entry's send is among them |
| Ledger.AckedEntryNotResent | maelstrom-rust/src/async_comm_node.rs:26-40 | after an entry has been removed, a later pass does not issue that entry's send |
| Codec.RoundTrip | maelstrom-rust/src/async_comm_node.rs:19-21 | decoding the cached text of a broadcast body gives back that body |
| Codec.SerializeInjective | maelstrom-rust/src/async_comm_node.rs:19-21 | two different bodies are never cached under the same text, so a retried text identifies its body |
| Gossip.FanOutEntries | maelstrom-rust/src/routes/broadcast.rs:23-29 | the fan-out creates an entry exactly for each key (inbound id, n) with n a neighbour other than the sender, and each entry holds the same cached text |
| Service.MlstService.Reply | maelstrom-rust/src/routes/broadcast.rs:38 | the trait's `reply(msg_id, src, body)` appends one response to the outbox, addressed to `src` and correlated to `msg_id`, carrying the body unchanged; nothing else changes |
| Service.MlstService.ProcessBroadcast | maelstrom-rust/src/routes/broadcast.rs:7-39 | the message set, ledger and outbox afterwards are those of `Gossip.OnBroadcast` applied to the state before the call; the neighbour list and node id are only read |
| Gossip.DuplicateIgnored | maelstrom-rust/src/routes/broadcast.rs:18-20 | a value that was already seen leaves the message set and ledger unchanged, and nothing is sent or replied |
| Gossip.NewValueStoredAndFannedOut | maelstrom-rust/src/routes/broadcast.rs:18-29 | a new value is added to the message set; every neighbour other than the sender gets an entry (inbound msg_id, neighbour) holding the serialized request; all other entries stay; no other key appears |
| Gossip.SenderUntouched | maelstrom-rust/src/routes/broadcast.rs:24-28 | no entry is created or changed for the sender |
| Gossip.ReplyIffCorrelated | maelstrom-rust/src/routes/broadcast.rs:30-38 | a `broadcast_ok` to the sender, correlated to the request's msg_id, is sent exactly when the value is new and the request carried a correlation id |
| Gossip.Idempotent | maelstrom-rust/src/routes/broadcast.rs:18-29 | receiving the same broadcast a second time, from any sender and with any neighbour list, leaves the state of receiving it once and sends nothing |
| Gossip.SameIdOverwrites | maelstrom-rust/src/routes/broadcast.rs:28 | two different values relayed under the same inbound id to the same neighbour share one ledger key and the later value's text replaces the earlier one; with no retry pass in between, no entry for that neighbour holds the first value's text any more, so the first value is never relayed to it |
| Service.MlstService.ProcessBroadcastOk | maelstrom-rust/src/routes/broadcast.rs:43-57 | only the key (in_reply_to, src) is removed from the ledger; every other entry and the message set are unchanged |
| Topology.SelectRow | maelstrom-rust/src/routes/topology.rs:14-15 | the selection succeeds exactly when the node id is set and has a row, and then yields that row; otherwise it fails as missing node id or missing row |
| Topology.OtherRowsIgnored | maelstrom-rust/src/routes/topology.rs:15 | rows for other nodes do not affect the selected row |
| Service.MlstService.ProcessTopology | maelstrom-rust/src/routes/topology.rs:5-21 | on success the neighbour list becomes this node's row in order and a `topology_ok` correlated to the request's msg_id goes to the sender; on failure nothing changes; node id and messages are never modified |
| Read.Collect | maelstrom-rust/src/routes/read.rs:16-22 | the list contains exactly the values of the set, each once, so its length is the set's size |
| Service.MlstService.ProcessRead | maelstrom-rust/src/routes/read.rs:5-25 | a `read_ok` correlated to the request's msg_id goes to the sender, listing every stored value once; no other state changes |
| Service.MlstService.ProcessInit | maelstrom-rust/src/routes/init.rs:5-12 | the node id becomes the request's node id, the response type is `init_ok`, and `node_ids`, neighbours, messages and ledger are not touched |
| Echo.ProcessEcho | maelstrom-rust/src/routes/echo.rs:5-12 | the response type is `echo_ok` and the response echo is the request's echo |
| Echo.EchoIgnoresRequestType | maelstrom-rust/src/routes/echo.rs:7-10 | the response does not depend on the request's own type field |
| EarlyNode.Node.constructor | maelstrom-rust/src/node.rs:14-19 | a new node has no id and an empty `node_ids` |
| EarlyNode.Node.ProcessInit | maelstrom-rust/src/node.rs:45-56 | the node id becomes the request's node id and the body is `init_ok` with msg_id 1 and no in_reply_to |
| EarlyNode.ProcessEcho | maelstrom-rust/src/node.rs:58-69 | the body is `echo_ok` with the request's echo, msg_id 1 and no in_reply_to; it is a function, so no state changes |
| EarlyNode.ReplyBody | maelstrom-rust/src/node.rs:100-102 | the reply body carries in_reply_to equal to the request's msg_id and keeps the handler's payload and msg_id |
| EarlyNode.Node.Send | maelstrom-rust/src/node.rs:89-98 | with the node id set, one envelope from this node's id to the destination is written; without it, sending fails and nothing is written |
| EarlyNode.Node.Reply | maelstrom-rust/src/node.rs:100-104 | the envelope goes to the request's source and carries the correlated reply body |
| EarlyNode.Node.ProcessRequest | maelstrom-rust/src/node.rs:28-43 | an init request sets the node id and an echo request leaves it; either way the handler's body is sent as a reply to the request |

## Left out

- Tokio tasks and timers (`crdt_main.rs:22-43`) are not modelled. Retrying is the explicit step `RepeatUnacked`, which the environment may invoke at any time. The timer loop in `crdt_main.rs` calls the empty CRDT `broadcast` stub every 4999 ms, not `repeat_unacked`.
- Mutexes and lock scope are not modelled. Every handler runs atomically, so the split between `check_message` and `store_message`, and sending while the ledger lock is held, do not arise.
- stdin/stdout/stderr I/O (`read`, `write`, `log` in `node.rs`), every `log` call, and the endless `main` loop are not modelled. Written output is the `outbox` or `written` sequence.
- JSON encoding via serde is not modelled. `Codec.Serialize` is an injective stand-in with the broadcast body's fields; its text layout is not serde's. `RawValue::from_string(...).unwrap()` is taken to succeed on a cached text.
- JSON decoding of a handler's body is approximated. It is modelled as the body having that handler's constructor in `Proto.RequestBody`. serde would also accept other objects that happen to have the fields it needs.
- The implementations of the crdt node trait's `reply` and `communicate` are not among the sources. `Service.MlstService.Reply` stands for `reply`, and the `Comm` records of `RepeatUnacked` stand for `communicate`. Their records carry destination and payload but no envelope source, and `Reply` does not check the node id.
- The route names of the broadcast trait are assumed: `get_route_broadcast` and `get_route_broadcast_ok` (`routes/broadcast.rs:41`, `:59`) are implemented nowhere in the sources. The model takes the reply type to be `broadcast_ok`, the name the Maelstrom protocol uses.
- The broadcast value type is assumed: the crdt `MsgType` is defined in a file that is not among the sources, and the model takes it to be an unbounded integer (`MsgValue = int`), as Maelstrom's broadcast workload sends integers.
- Every `Fail(...)` outcome stands for a Rust panic: the `panic!` at `crdt_main.rs:116`, the `unwrap()` calls at `routes/topology.rs:13` and `:15`, `routes/broadcast.rs:15` and `:51`, `routes/read.rs:13`, and `node_id.unwrap()` at `node.rs:91`. The model returns `Fail` with no effect and the object stays usable. In the source the panic ends the receive task, after which `main` returns (`crdt_main.rs:34-42`); in `node.rs` it ends the process. So the model does not capture that the node stops after such a failure.
- Service.MlstService.ProcessBroadcast and Service.MlstService.ProcessBroadcastOk take bodies that are already decoded, so the decoding panics at `routes/broadcast.rs:15` and `:51` have no failure path in the model.
- Integer widths of `MsgId` and `CommId` are not modelled. They are unbounded, so the counter never wraps.
- `replicate.rs` is an empty stub: its route passes and has no effect. `crdt_node.rs` and `main.rs` have no behaviour to model.
- The `Topology` variants of the request and response enums in `proto.rs` are not modelled. `node.rs` `process_request` has no arm for them.
- Service.MlstService.Dispatch: the `init_ok`/`echo_ok` bodies returned by the init and echo routes are discarded, because `dispatch_request` returns nothing. The argument lists of those calls in `crdt_main.rs` do not match the routes' own signatures.
- Service.MlstService.ProcessRead: the order of the listed values is one the model picks nondeterministically. A `HashSet`'s iteration order is unspecified.
- Ledger.AckedEntryNotResent is stated for ledgers where no other entry would produce the same (destination, text) send. If another entry would, that entry's send is legitimately identical.
