# Typed replication protocols, modelled in Dafny

This project models the core of a replicated request-execution service:

- **At-most-once layer** (`amo.dfy`, module `Amo`).
  - Client session: each invocation advances the session's seq by one and publishes one request carrying it. It then takes replies from its reply stream in order, discards those with another seq, and returns the result of the first one that matches.
  - Server: one request loop per client, holding one saved reply. A request older than the saved reply is dropped. A request with the saved seq first has the saved reply re-published. Every request that is not dropped is then executed, and its new reply is saved and published.
- **Primary-backup replica** (`replica.dfy`, module `Replica`).
  - Per-client typestate machines. Primary side: `PReplied → PBackingUp → PReplying`. Backup side: `BBackingUp → BReplying`. `BReplying.Promote` lifts a backup result into the primary representation.
  - Per-replica role machine. `Idle` becomes `Primary` by `StartPrimary` and `Backup` by `Load`. `Backup` becomes `Promoting` by `Promote`, or `Primary` directly by `PromoteNoSync`. `Promoting` becomes `Primary` by `Promoted`. `State.New` starts a replica in `Idle`.
- **Shared types** (`base.dfy`, module `Base`; `pb_messages.dfy`, module `PbMessages`).
  - The operation, result, address and identity types are abstract.
  - Every sequence number is a `u32` newtype.
  - The application is an `App` object. Its opaque semantics `run` is fixed when it is created. It keeps `executed`, the log of every operation it has executed, so "executed exactly once" and "never executed" are stated as facts about that log.

Each state is a datatype, and each transition consumes one state value and returns the next. Effects go through two channels only:

- a `Context` object, whose `trace` records every `send_reply`, `sync_op`, `sync_op_ok`, `sync_app` and `sync_app_ok` call;
- `App.Execute`.

A transition that does not take the context or the application cannot affect them. For example, `PReplying.Reply` cannot execute anything, and `BBackingUp.Execute` cannot send anything.

Where the design intent and the code differ, the model follows the code:

- **Equal-seq requests are executed again.** The at-most-once server re-publishes the saved reply for a request with the saved seq, and then goes on to execute that request again, because there is no `continue` after the re-publish. `Amo.RetransmissionExecutesAgain` shows that the operation is executed twice. At-most-once execution is therefore claimed only for stale requests (`Amo.StaleAfterSaved`), not for equal-seq ones.
- **No seq check on the primary.** `PReplied.Request` and `RequestNoSync` do not compare the request's seq with the current one.
- **Stale requests get no reply.** The design has the server answer a request older than the saved reply with the cached reply, so that a lost reply is repaired. The code drops such a request and publishes nothing, and `Amo.Step` leaves the whole state unchanged for it.
- **No wait for the backup.** `PBackingUp.Execute` executes and replies immediately. It does not wait for the backup's acknowledgement.

## Model

| member | source | states |
|---|---|---|
| `Base.App.Execute` | src/lib.rs:11-16 | the application's log grows by exactly the given operation, and the result is the application's deterministic outcome for that operation after the earlier log |
| `Replica.Context.SendReply` | src/pb/replica.rs:36 | the trace grows by exactly one reply effect to the given address |
| `Replica.Context.SyncOp` | src/pb/replica.rs:37 | the trace grows by exactly one operation-sync effect with the given backup, sync seq, client and operation |
| `Replica.Context.SyncOpOk` | src/pb/replica.rs:38 | the trace grows by exactly one sync-acknowledgement effect |
| `Replica.Context.SyncApp` | src/pb/replica.rs:39 | the trace grows by exactly one state-transfer effect carrying the application and reply table |
| `Replica.Context.SyncAppOk` | src/pb/replica.rs:40 | the trace grows by exactly one state-transfer acknowledgement to the given primary |
| `Replica.PReplied.New` | src/pb/replica.rs:85-87 | a client's primary-side machine starts at seq 0 |
| `Replica.PReplied.Request` | src/pb/replica.rs:89-98 | yields exactly the state `RequestNoSync` yields, and records exactly one `sync_op(backup, syncSeq, request.id, op)` |
| `Replica.PReplied.RequestNoSync` | src/pb/replica.rs:100-102 | the backing-up state carries exactly the request's seq, operation and client address; it takes no context, so it records no effect |
| `Replica.PBackingUp.Execute` | src/pb/replica.rs:106-115 | executes the stored operation exactly once; the new replying state holds the same seq and that execution's result; exactly one reply, equal to the replying state's answer, is sent to the stored address |
| `Replica.PReplying.AsReply` | src/pb/replica.rs:109-112 | the reply message carries the cached seq and result |
| `Replica.PReplying.Reply` | src/pb/replica.rs:131-139 | returns a state equal to its input and sends exactly one reply with the cached seq and result; it takes no application, so nothing is executed |
| `Replica.PReplying.IsReceived` | src/pb/replica.rs:142-144 | a request numbered s is newer exactly when s exceeds the seq of the cached reply |
| `Replica.PReplying.IsReplying` | src/pb/replica.rs:146-148 | a retransmission is never also "received" (newer), and a seq that is neither is older than the cached one |
| `Replica.BBackingUp.New` | src/pb/replica.rs:119-121 | the forwarded state carries the given seq and operation |
| `Replica.BBackingUp.Execute` | src/pb/replica.rs:123-127 | keeps the seq and executes the operation exactly once with that execution's result cached; it takes no context, so no effect is recorded |
| `Replica.BReplying.Promote` | src/pb/replica.rs:152-155 | keeps seq and result, and the promoted state treats that same seq as a retransmission answered with the same result |
| `Replica.PromoteAll` | src/pb/replica.rs:206-210 | the promoted table has exactly the original client keys, each with the same seq and result |
| `Replica.Backup.Promote` | src/pb/replica.rs:187-199 | records exactly one `sync_app` to the new backup with the supplied application and table; the promoting state keeps the new backup's id and this backup's own table |
| `Replica.Backup.PromoteNoSync` | src/pb/replica.rs:201-212 | the new primary has zero prepared and committed seqs and nothing backing up; its table has exactly the backup's keys, each the promoted backup result |
| `Replica.Promoting.Promoted` | src/pb/replica.rs:217-229 | the new primary has zero prepared and committed seqs and nothing backing up; its table has exactly the prior keys, each the promoted backup result |
| `Replica.Idle.StartPrimary` | src/pb/replica.rs:234-241 | the first primary has zero counters, nothing backing up and an empty table |
| `Replica.Idle.Load` | src/pb/replica.rs:243-255 | the backup's table equals the supplied one, with committed seq 0 and nothing backing up, and exactly one `sync_app_ok(primary)` is recorded |
| `Replica.State.New` | src/pb/replica.rs:274-281 | a replica starts in the idle role with the given identity and application |
| `Replica.PrimaryRetransmission` | src/pb/replica.rs:84-148 | request, execute, then a retransmission of the same seq: the operation is executed once, one `sync_op` is sent, and the client gets the identical reply twice |
| `Replica.PromotionRetransmission` | src/pb/replica.rs:118-212 | a backup executes an operation and is promoted without a successor; a retransmission of that seq is answered with the backup's result and nothing is executed again |
| `Amo.Bus.Publish` | src/amo.rs:36 | the published messages grow by exactly the given message |
| `Amo.AwaitReply` | src/amo.rs:37-43 | replies are consumed in order; every reply before the returned one has a different seq; the returned result is that of the first reply with the current seq; no result means no reply in the stream has that seq |
| `Amo.ServeTask.constructor` | src/amo.rs:46-51 | a client session starts at seq 0 |
| `Amo.ServeTask.Handle` | src/amo.rs:29-42 | the seq grows by exactly 1; exactly one request carrying the new seq, the operation and the client's address is published; the result comes from the first reply with the new seq, and the replies before it are discarded |
| `Amo.Step` | src/amo.rs:63-77 | a stale request changes nothing; any other request executes its operation exactly once, saves a reply carrying the request's seq and that result, and publishes that reply last; a request with the saved seq also re-publishes the old saved reply first; the saved reply never moves back |
| `Amo.ServeClient` | src/amo.rs:60-78 | the loop's saved reply, the application's log and the bus are exactly those of `Run` over the requests, starting from no saved reply |
| `Amo.SavedNeverDecreases` | src/amo.rs:60-77 | across any number of further requests, the saved reply's seq never decreases, and once a reply is saved there is always one |
| `Amo.StaleAfterSaved` | src/amo.rs:63-66 | once a reply numbered n is saved, every later request numbered below n is dropped: not executed, not answered, saved reply unchanged |
| `Amo.FirstRequestExecuted` | src/amo.rs:60-77 | a client's first request is executed and its reply saved and published |
| `Amo.IncreasingRequestsExecutedOnce` | src/amo.rs:60-77 | when a client's requests carry strictly increasing seqs, each request is executed exactly once and in order, and the saved reply carries the latest request's seq |
| `Amo.RetransmissionExecutesAgain` | src/amo.rs:67-77 | a request repeating the saved seq is executed a second time: the operation appears twice in the log and the client receives the saved reply followed by the second execution's reply |

## Left out

- Asynchronous plumbing (`subscribe`, `publish` delivery, `serve`, `join`, awaiting `recv`): each handler body is a step over explicit inputs, and `Bus` only records what is published.
- Order of arrival: a client's reply stream is given up front as the sequence of replies it will receive, so replies arriving while a request is in flight are not modelled separately.
- The `unreachable!()` after the client's receive loop: a closed reply stream is the `None` result of `Amo.ServeTask.Handle`, not a panic.
- `ExecuteTask`: the task that wraps the application is replaced by a direct call of `App.Execute`.
- Sharing of one application among several clients' server loops: `Amo.ServeClient` models one client's loop on its own.
- Amo.ServeTask.Handle: requires the seq to be below the `u32` maximum. Rust's `+=` panics there in debug builds and wraps to 0 in release builds, and neither outcome is modelled.
- The deployment-only message structs `SyncOp`, `SyncOkUpTo` and `SyncApp`: the context effects carry the same fields.
- `SyncApp` records the application object handed over, not a copy of its state.
- Key order of the `BTreeMap` tables: Dafny maps are unordered, and no transition depends on the order.
- The query, ping and view messages of `src/pb.rs`: they carry no logic.
- A dispatcher over the role states, sync-acknowledgement handling, and any update of prepared or committed seqs: the source has none of them, so only the role datatype and `State.New` are modelled.
