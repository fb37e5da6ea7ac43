# notemine-js mining coordinator — a Dafny model

This project models the proof-of-work mining core of notemine-js:

- the coordinator class `Notemine` (src/index.ts), which holds a mining
  configuration, spawns one worker per configured worker count, posts each
  worker its id and the worker count, tracks every worker's best proof of work
  and the run's overall best, and publishes progress, error, cancelled and
  success events;
- the mining worker (src/mine.worker.ts), whose `onmessage` handler keeps the
  module-level flags `mining` and `miningCancelled`, derives its start nonce
  and nonce step from the posted id and worker count, and runs the external
  hashing primitive;
- `verifyPow` (demo/src/lib/publish.ts), which reads the target difficulty from
  an event's first `nonce` tag and clamps it to the hash's leading-zero count.

Files and modules:

- `wrappers.dfy` (`Wrappers`): `Option` (JavaScript `null`/`undefined`) and
  `Outcome` (a normal return or a thrown error with its message).
- `protocol.dfy` (`Protocol`): the candidate event, the proof-of-work and result
  records, the requests posted to a worker and the messages a worker posts back.
- `nonce_space.dfy` (`NonceSpace`): the start/step allocation and the proof that
  the residue classes modulo the worker count partition the naturals.
- `pow_tracker.dfy` (`PowTracker`): the "replace only when strictly greater"
  rule and what it gives over a whole run.
- `notemine.dfy` (`Coordinator`): class `Notemine`, with the configuration and
  run-state fields of the source, worker handles as a sequence of records
  (the posted `mine` message and a `terminated` flag) and the four event
  channels as ghost sequences of published events. A ghost log of the run's
  proof-of-work reports ties the best proof of work to its history: the class
  invariant `Valid()` states that the best is the fold of the strict update rule
  over that log.
- `mine_worker.dfy` (`Worker`): class `MineWorker`. The handler is an `async`
  function that suspends at `await init()`; it is split there into `OnMessage`
  (what runs when a message arrives) and `ResumeMine` (what runs once `init()`
  settles), so a message that arrives during `init()` is handled with the flags
  as they are at that point. The primitive is a function parameter: given the
  call (event, difficulty, start nonce and step, and what `shouldCancel()`
  answers), it yields its progress callbacks and either a return value or a
  thrown message.
- `verify_pow.dfy` (`PowCheck`): `verifyPow` with `find`, the length guard,
  JavaScript's `parseInt(s, 10)` (leading white space, sign, longest digit
  prefix, NaN) and `Math.min`.
- `scenarios.dfy` (`Scenarios`): client methods that derive whole runs from the
  contracts alone. They show a run from configuration to success, cancellation
  before and during a run, a missing public key, reports 5, 3, 5, 8, 8, 2 where
  the first 8 wins, and a second `result` that is delivered as a second success
  event. One scenario is a `cancel` message without an id that arrives during
  `init()`: it clears the worker id, so `BigInt(workerId)` throws and the run
  ends with an error message.

What the code does and what a reader might expect differ in a few places; the
model follows the code:

- Success is not exactly-once. `handleWorkerMessage` never looks at `mining`,
  so every `result` message, including a late one after a success or a cancel,
  sets `result`, clears `mining`, terminates the workers again and publishes a
  success event. Late `progress` and `error` messages are also handled
  (src/index.ts:168-204).
- Workers of one run are not guaranteed to share a timestamp. `prepareEvent()`
  runs once per worker inside the spawn loop (src/index.ts:154), so worker `i`'s
  event carries the `i`-th clock reading. Readings in whole seconds usually
  agree, and the events are equal exactly when the readings are.
- A worker count of zero or less is not rejected. `||` turns 0 into the
  hardware concurrency or 4, and a negative count spawns no worker.
- The best-proof-of-work update returns nothing. It replaces the best when
  there is none or the new value is strictly greater, and the progress event
  always carries the reporting worker's own data, whether or not it improved
  the best.
- In the worker, every message overwrites `workerId`, including ignored `mine`
  messages and `cancel` messages (src/mine.worker.ts:9). The start nonce is
  read from it after `await init()`, so results are tagged with the id of the
  last message received.

## Model

| member | source | states |
|---|---|---|
| `NonceSpace.NonceAtIsLinear` | src/mine.worker.ts:18-19 | the `k`-th nonce a worker tries, stepping from its start nonce, is `start + k * step` |
| `NonceSpace.EveryNonceHasAnOwner` | src/mine.worker.ts:18-19 | every natural nonce `n` is the `n / N`-th nonce tried by worker `n % N` of `N >= 1` workers |
| `NonceSpace.NoNonceHasTwoOwners` | src/mine.worker.ts:18-19 | two workers of one run never try the same nonce, and no worker tries a nonce twice |
| `NonceSpace.ResidueClassesPartition` | src/mine.worker.ts:18-19 | for `N >= 1` the nonce sets `{i + k*N}` partition the naturals: `n` belongs to worker `n % N` and to no other |
| `PowTracker.Update` | src/index.ts:177-185 | the best after a report exists, covers the report and never falls; a tying or lower report keeps the earlier best; a first or strictly greater report becomes the best with the reporter's id |
| `PowTracker.HighestIsFirstMaximum` | src/index.ts:172-186 | after any reports of a run, the best is the first report with the maximal value: none exceeds it and every earlier report is lower |
| `Coordinator.SpawnPlan` | src/index.ts:145-166 | a run spawns exactly `numberOfWorkers` live workers (none for a negative count); worker `i` is posted id `i`, the count, the difficulty and an event stamped with the `i`-th clock reading |
| `Coordinator.SpawnedEventsDifferOnlyInTimestamp` | src/index.ts:154 | events posted to two workers of a run agree on all but `created_at`, and are equal exactly when their clock readings are |
| `Coordinator.WorkersPartitionNonces` | src/index.ts:157-163 | the workers of a run of at least one worker cover every natural nonce exactly once, by the worker whose id is its residue |
| `Coordinator.BestIsFirstMaximalReport` | src/index.ts:172-186 | for a coordinator that has seen reports, its `highestPow` is the first report of the maximal value, with that report's worker id: none exceeds it and every earlier report is lower |
| `Coordinator.AllTerminated` | src/index.ts:195 | terminating the worker list marks every handle terminated and keeps what each was posted |
| `Coordinator.Notemine.constructor` | src/index.ts:77-84 | options fall back with `||` (empty string, 0 and a missing value take the default; difficulty 20; worker count from the hardware concurrency, then 4); a new coordinator is not mining, not cancelled, has no result, no workers, no best, no reports and no events |
| `Coordinator.Notemine.SetContent` | src/index.ts:86-88 | only `content` changes |
| `Coordinator.Notemine.SetTags` | src/index.ts:90-92 | only `tags` changes |
| `Coordinator.Notemine.SetPubkey` | src/index.ts:94-96 | only `publicKey` changes |
| `Coordinator.Notemine.Mine` | src/index.ts:104-123 | while mining: a no-op; else an empty public key throws "Public key is not set.", checked before content, and an empty content throws "Content is not set.", both with no state change; otherwise mining, not cancelled, no result, no best, no per-worker data, no reports and exactly the planned workers; no event is published |
| `Coordinator.Notemine.ResetRun` | src/index.ts:115-120 | the run state becomes mining, not cancelled, no result, no workers, no per-worker data and no best, the report log is emptied and the invariant holds |
| `Coordinator.Notemine.InitializeWorkers` | src/index.ts:145-166 | appends the planned handles to the worker list, in id order |
| `Coordinator.Notemine.TerminateWorkers` | src/index.ts:195 | the worker list becomes the same handles, all terminated |
| `Coordinator.Notemine.Cancel` | src/index.ts:125-133 | when not mining nothing changes and nothing is published; otherwise every worker is terminated, `cancelled` is set, `mining` cleared and exactly one cancelled event with "Mining cancelled by user." is published, all else unchanged |
| `Coordinator.Notemine.Publish` | src/index.ts:135-138 | throws "No mined result to publish." exactly when there is no result |
| `Coordinator.Notemine.HandleWorkerMessage` | src/index.ts:168-204 | progress with data records it for its worker id, appends it to the run's reports and updates the best by the strict rule, and publishes one progress event either way; a result sets `result` to its payload, clears `mining`, terminates every worker, keeps `cancelled` and publishes one success event; an error publishes one error event and changes nothing else; an unknown type does nothing; throughout, the best is the fold of the strict rule over the run's reports and dominates every worker's last report |
| `Coordinator.Notemine.HandleProgress` | src/index.ts:172-189 | the `progress` branch: data that is present is stored under its worker id, appended to the reports and offered to the best by the strict rule; one progress event carries the message's own data; nothing else changes |
| `Coordinator.Notemine.HandleResult` | src/index.ts:190-199 | the `result` branch: `result` becomes the payload, `mining` is cleared, every worker is terminated and one success event is published; nothing else changes |
| `Coordinator.Notemine.HandleWorkerError` | src/index.ts:206-209 | publishes one error event carrying the event's `error` if truthy, else its message, and changes nothing else |
| `Worker.MineWorker.constructor` | src/mine.worker.ts:3-5 | a fresh worker is not mining, not cancelled and has no id |
| `Worker.MineWorker.OnMessage` | src/mine.worker.ts:7-57 | every message sets the worker id; a `mine` while mining is ignored with the flags unchanged; an accepted `mine` clears the cancel flag and sets `mining` before the primitive runs; a `cancel` sets the flag so `shouldCancel()` answers true |
| `Worker.MineWorker.ResumeMine` | src/mine.worker.ts:15-54 | the primitive is invoked with start nonce = id and step = count and the current cancel flag, unless `init()` failed or an undefined id or count made `BigInt` throw; the messages posted are those of `Continuation`; `mining` is false afterwards |
| `Worker.ProgressMessagesMirrorReports` | src/mine.worker.ts:21-33 | each progress callback posts one progress message with the worker id and the rate, carrying best-proof-of-work data exactly when it was supplied |
| `Worker.AcceptedMineEndsWithOneFinalMessage` | src/mine.worker.ts:39-54 | a resumed handler posts progress messages and then exactly one result or error message, the last one, all tagged with the worker id |
| `PowCheck.FindNonceTag` | demo/src/lib/publish.ts:35 | finds the first tag whose first element is "nonce", or reports that there is none |
| `PowCheck.VerifyPow` | demo/src/lib/publish.ts:32-41 | the result never exceeds the hash's count, and is 0 when no tag is a nonce tag |
| `PowCheck.ShortFirstNonceTagGivesZero` | demo/src/lib/publish.ts:35-38 | a first nonce tag with fewer than three elements gives 0, even if a later nonce tag is well-formed |
| `PowCheck.OnlyFirstNonceTagMatters` | demo/src/lib/publish.ts:35-40 | the result depends only on the count and the first nonce tag; other tags are ignored |
| `PowCheck.DecimalTargetIsClamped` | demo/src/lib/publish.ts:39-40 | a first nonce tag whose target is a decimal numeral `d` gives `min(count, d)`, at most both |
| `PowCheck.ParseIntOfDecimal` | demo/src/lib/publish.ts:39 | `parseInt(s, 10)` reads back the decimal numeral of `n`, whatever non-digit text follows |

## Left out

- Web Worker creation, `postMessage` and `onmessage` transport and the
  internals of `terminate()`: spawning appends a handle record holding the
  posted message, and terminating sets its flag.
- The hashing primitive `mine_event` and `init()` are foreign code: the
  primitive is a function parameter and `init()`'s outcome a parameter of
  `ResumeMine`. The text of a thrown error is whatever they supply; for
  `BigInt(undefined)` the model uses the message V8 gives.
- rxjs subscription semantics: each channel is the sequence of events published
  on it.
- `Date.now()` and `JSON.stringify` in `prepareEvent`: the clock is a parameter
  (`clock(i)` is the reading, in seconds, for the `i`-th worker), and the posted
  event is the record itself rather than its serialisation.
- `navigator.hardwareConcurrency` is a constructor parameter.
- `hashRate`, `totalTime` and the finalised event are carried as opaque values
  (reals and a string); nothing computes with them.
- Numbers are integers: fractional difficulties or worker counts, NaN options,
  and the loss of precision of large targets in `parseInt` are not modelled.
- `sign()` and the placeholder part of `publish()` have empty bodies in the
  source; `publishEvent`, signing, the relay pool, DOM writes, `relayUrls`
  beyond being stored, and `getEventHash`/`getPow` (the count is a parameter)
  are I/O or foreign calls.
- Concurrency: the coordinator's handlers and the worker's handler are
  sequences of calls. In the worker, messages can interleave only at
  `await init()`; the primitive itself runs to completion without the handler
  running again.
- The best-proof-of-work field: the handler reads `best_pow` from the
  primitive's data while the declared type names it `bestPow`; the model has
  one integer field for the value the handler compares.
- Array aliasing: the constructor and `setTags` keep the caller's `tags` and
  `relayUrls` arrays by reference (src/index.ts:79, 83, 91), so a later change
  the caller makes to them reaches the next `prepareEvent`; the model stores
  sequence values, which the caller cannot change afterwards.
- `NonceSpace.NonceAt`: the nonces a worker tries are `start, start + step, …`
  without bound; the primitive's fixed-width nonce and any wrap-around are not
  modelled, so the partition of the nonce space holds only below that width.
- Thrown values: the worker turns what the primitive throws into a string
  with `error instanceof Error ? error.message : String(error)`; the model
  receives that string directly from the primitive.
