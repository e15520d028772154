# ManagerService bookkeeping, modelled in Dafny

This project models the coordination core of the tss-mpc-node manager: the
`ManagerService` of `src/manager/service.rs`. The service keeps a registry of
signing rooms keyed by the digest of a message. It takes in signing requests
(store, create the room, read it back, notify each member party, fail fast)
and sends others out over the queue (store, then publish). For a
key-generation request it stores the request and runs one keygen task per
party. It then sorts the task outcomes into index-ordered successes and
index-tagged diagnostics, and records the successes whatever the number of
failures.

The files:

- `common.dfy` (module `Common`): bytes, 16-bit integers, room keys, the
  request and result records, the room descriptor `SigningRoom` and the
  descriptor `NewRoom` of a fresh room.
- `trace.dfy` (module `Trace`): the calls the service makes to storage, the
  queue, the notifier and the keygen protocol (`Call`), and the invariant
  `Ordered`. It says a request is notified, published, run or has its result
  recorded only after storage accepted it.
- `notification.dfy` (module `Notification`): the fail-fast notification
  round. `FirstFailure` gives the position of the first failing notification.
  `Attempts`, `Attempted` and `Delivery` give how many notifications are
  tried, which ones, and what the round returns.
- `keygen.dfy` (module `Keygen`): the three-case `TaskOutcome`, and the
  partition loop `Partition` with its specification functions `Successes`,
  `Diagnostics`, `SuccessIndices` and `FailureIndices`. It also holds the
  decimal rendering of party indices inside diagnostics, and a parser that
  reads a diagnostic's party index and failure kind back.
- `service.dfy` (module `Manager`): the class `ManagerService` with the
  registry field `signingRooms`, the constant `totalParties`, the digest
  function, the member numbers of a fresh room (`newMembers`) and the call
  trace `calls`. Its methods are the service's operations.
  `ThreePartiesFirstNotifyFails` is a verified client: three parties, fresh
  rooms with members 1, 2 and 3, message "hello", and the first
  notification fails, so exactly one notification is attempted.

Outside collaborators appear as parameters:

- the storage answers (`stored`, `updated`, `found`, `written`);
- the queue's answer to a publish (`published`);
- each party's notification outcome (`notify`);
- the keygen task outcomes, in spawn order (`results`);
- the message digest, a function handed to the constructor;
- the member numbers `SigningRoom::new` gives a fresh room, a function of the
  room key and the capacity handed to the constructor (`newMembers`). The
  constructor requires them to lie in 1..`total_parties`.

Runtime facts, as modelled:

- A HashMap's key order is not specified, so `HandleSigningRequest` takes the
  order in which the room's member numbers are visited (`order`). It requires
  that this order lists the members exactly once.
- `join_all` yields results in spawn order, so `results[i]` is the outcome of
  the task spawned i-th.

Behaviour of the code that the model keeps, where one might expect otherwise:

- Successes are kept in party-index (spawn) order, not in completion order.
- Creating a room overwrites any room already stored under its key; an
  existing room is not kept.
- The spawned tasks ignore their party index: every task runs the protocol
  with the same manager address and request. So `RunKeygenCalls` records N
  identical calls.
- The read guard on the registry is held across the notification calls
  (src/manager/service.rs:68-73), so a room creation by another request
  waits until every notification has been sent. Locks are not modelled, so
  this has no effect on the model.

## Model

| member | source | states |
|---|---|---|
| `Manager.ManagerService.constructor` | src/manager/service.rs:36-42 | a new service has an empty room registry, the given room capacity, digest and fresh-room members, and no collaborator calls, and satisfies the invariant |
| `Manager.ManagerService.InitiateSigning` | src/manager/service.rs:79-86 | returns digest(message); afterwards the registry maps that key to a fresh room of capacity total_parties with the fresh-room members, replacing any earlier entry, and every other key holds exactly what it held before |
| `Manager.ManagerService.HandleSigningRequest` | src/manager/service.rs:61-77 | if the insert fails: returns that error, registry unchanged, the only call is the failed insert and no notification is attempted. Otherwise: the room is created and, with `order` listing its members once each, after the insert exactly the notifications of `Attempted(order, notify)` follow, in order. The result is the first notification error, or Ok if none fails. The registry and trace invariants are kept |
| `Manager.ManagerService.ProcessSigningRequest` | src/manager/service.rs:105-109 | publish is attempted only after a successful insert; a failed insert returns its error with no publish; otherwise the publish's result is returned |
| `Manager.ManagerService.ProcessKeygenRequest` | src/manager/service.rs:111-148 | a failed insert returns its error and nothing else is called. Otherwise N identical keygen runs follow, then one update that records `Successes(results)` against request.id, even when every party failed. The call returns exactly that list, or the update's error |
| `Manager.ManagerService.GetSigningResult` | src/manager/service.rs:94-99 | returns storage's answer unchanged, records the read with whether storage answered with an error, and leaves the registry alone |
| `Manager.ManagerService.UpdateSigningResult` | src/manager/service.rs:101-103 | returns storage's answer to the write unchanged, errors included, and records the write |
| `Common.PartySlots` | src/manager/service.rs:83 | the set of party numbers 1..total_parties exactly, the range every member number of a room of that capacity is drawn from |
| `Trace.ExtendOrdered` | src/manager/service.rs:63-73 | appending calls whose prerequisite insert is already in the trace keeps every notify, publish, keygen run and keygen update behind a successful insert of its request |
| `Notification.FirstFailure` | src/manager/service.rs:71-73 | the result k is within bounds, every notification before position k succeeds, and the one at k (if any) fails |
| `Notification.StopsAtFirstFailure` | src/manager/service.rs:71-73 | if notification k is the first to fail, exactly k+1 notifications are attempted (the prefix up to k), no later party is tried, and the round returns that failure's error |
| `Notification.SucceedsIffAllSucceed` | src/manager/service.rs:71-76 | the round returns Ok if and only if every notification succeeds; it then has attempted all parties; on failure it attempted between 1 and all of them |
| `Notification.EveryMemberNotifiedOnce` | src/manager/service.rs:69-73 | when the order lists the room's members exactly once and none fails, the round succeeds and notifies every member exactly once and nobody else |
| `Notification.DistinctOccursOnce` | src/manager/service.rs:71 | a key sequence without repetition contains each of its keys exactly once |
| `Keygen.Partition` | src/manager/service.rs:129-138 | the loop's two vectors are exactly `Successes(results)` and `Diagnostics(results)` |
| `Keygen.SuccessIndices` | src/manager/service.rs:132-134 | the indices of the successful outcomes, strictly ascending, every one in range, and every success among them |
| `Keygen.FailureIndices` | src/manager/service.rs:132-137 | the indices of the failed outcomes (either kind), strictly ascending, every one in range, and every failure among them |
| `Keygen.SuccessesSelectPayloads` | src/manager/service.rs:132-134 | the successes are exactly the `Ok(Ok)` payloads, in party-index order: a subsequence of the outcomes |
| `Keygen.DiagnosticsSelectFailures` | src/manager/service.rs:132-137 | there is one diagnostic per failed party, in party-index order, each the diagnostic of that party's outcome |
| `Keygen.OutcomesAccounted` | src/manager/service.rs:117-138 | the successes plus the diagnostics number N, so k failures leave exactly N - k successes |
| `Keygen.DiagnosticRoundTrip` | src/manager/service.rs:135-136 | "Error in party i: e" and "Task error in party i: e" read back as party i and their failure kind, whatever e is |
| `Keygen.DiagnosticsTagged` | src/manager/service.rs:135-136 | the j-th diagnostic reads back as the index and the failure kind of the j-th failed party |
| `Keygen.AllFailed` | src/manager/service.rs:140-147 | when every party fails the success list is empty and there are N diagnostics |
| `Keygen.FourPartiesOneFault` | src/manager/service.rs:129-138 | four parties, party 2 faulting: three payloads in order and the single diagnostic "Task error in party 2: …", read back as party 2 |
| `Keygen.DecimalString` | src/manager/service.rs:135-136 | a party index renders as a non-empty string of decimal digits without a leading zero |
| `Keygen.DecimalRoundTrip` | src/manager/service.rs:135-136 | the decimal rendering of an index reads back as that index |
| `Keygen.LeadingDigits` | src/manager/service.rs:135-136 | the digit run at the front of a string is all digits and is followed by a non-digit or the end |
| `Keygen.LeadingDigitsOfNumeral` | src/manager/service.rs:135-136 | the digit run of a numeral followed by a non-digit is exactly the numeral |
| `Keygen.ParseIndexOfNumeral` | src/manager/service.rs:135-136 | the index is read back from "i: e" for any e |

## Left out

- Connection setup in `new`, the idle `run` loop, and the `threshold` and `signing_timeout` settings, which the core never reads.
- MongoDB and RabbitMQ: `insert_request`, `insert_key_gen_request`, `update_key_gen_result`, `publish_signing_request` and the stored-result reads and writes are foreign I/O. Their outcomes are parameters, and their calls appear in the `calls` trace.
- `notify_signer` is an unimplemented stub in the source. Each party's notification outcome is a parameter.
- `run_keygen` and the SHA-256 digest are external: the task outcomes are given, and the digest is a function fixed at construction.
- Concurrency: the tokio tasks, `join_all` and the `RwLock` around the registry are not modelled. Tasks are their outcomes in spawn order, and the lock is plain field access. Interleavings of concurrent requests are not modelled.
- JSON encoding and decoding of `SigningRoom` is not modelled: the registry stores the descriptor itself. The serialisation error paths of `initiate_signing` and `handle_signing_request` are left out. The read-back of a room just stored always finds it.
- `Common.PartySlots`, `Manager.ManagerService.HandleSigningRequest`: `SigningRoom::new` is not part of this model, so the member numbers of a fresh room are the constructor-supplied function `newMembers`, assumed only to lie in 1..total_parties. The number of notifications a signing request makes depends on that unseen set: if it is empty, no party is notified.
- `SigningRoom`'s per-member metadata and any room fields beyond key, members and capacity are not modelled.
- The logging calls (`info!`, and the `eprintln!` of the diagnostics). The diagnostics list is computed by `Partition` but not passed on.
- The two curve type aliases in src/signer/secp256k1def.rs hold no logic.
- The Display text of the protocol and task errors is taken as the given reason string.
