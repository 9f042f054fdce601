# QueryContext: the per-query memory and spill governor

A query running on a worker owns one `QueryContext`. The context admits memory on three paths, each
with its own memory context:

- **User memory** is checked against `maxUserMemory`, using the user memory context's current total.
- **System memory** is checked against `maxTotalMemory`, using the pool's recorded reservation for the query.
- **Revocable memory** has no per-query ceiling.

A non-negative delta is reserved in the current `MemoryPool` after its limit check. A negative delta
is freed unconditionally. On the user path there is also a non-blocking "try" variant.

The context also does the following:

- It keeps a spill-disk budget, `spillUsed` of at most `maxSpill`, and forwards spill reservations to
  a node-wide spill-space tracker.
- It can migrate the query to another pool, and then wakes up every registered task.
- It has a one-shot overcommit mode that raises both limits to the pool's maximum.
- When a limit is exceeded it builds a diagnostic that names the query's three largest tagged
  allocations.
- It keeps a registry of task contexts keyed by task instance id. An id has the form
  `<resume count>-<random UUID>`, and the resume count is parsed from it.

The project is organised as follows:

- `common.dfy`: the `long` range, the error kinds (thrown exceptions become an `Err` result) and
  futures, which are a done / not-done flag.
- `consumers.dfy`: the top-consumers report, its specification `IsTopConsumersOf`, and the
  enumeration of the tag map in an unspecified order.
- `task_id.dfy`: index-of, decimal `long` parsing, and resume-count extraction, with its round trip.
- `spill_budget.dfy`: the spill decisions as pure functions, the budget invariant over any sequence
  of calls, and the 64-bit overflow in `reserveSpill`.
- `memory_pool.dfy`: stand-ins for the two collaborators.
- `query_context.dfy`: the `QueryContext` class, whose fields the methods update in place, and the
  task contexts.

`MemoryPool.java`, `SpillSpaceTracker.java`, `TaskContext.java` and the memory-context classes are
not part of this model. Their roles are filled as follows:

- `Pool.MemoryPool` is a ledger class. It holds `maxBytes`, the reserved and revocable byte counts,
  per-query reservations, per-query revocable reservations, and per-query per-tag allocations.
- A blocking reserve always records the bytes. Its future is done iff the pool still has free bytes
  afterwards.
- A try-reserve records the bytes only when they fit.
- A free is unconditional.
- Moving a query hands its three ledger entries over to the target pool. The future is the target's.
- `Pool.SpillSpaceTracker` is a counter of reserved bytes.
- The user memory context's current total (`queryMemoryContext.getUserMemory()`) is an input
  parameter of the user-path methods.
- A task context keeps only its id, its resume count and a count of more-memory notifications.

Three details of the code that the model keeps:

- `setMemoryPool` calls `moveQuery` on the old pool first, and swaps the reference afterwards.
- The listener that notifies the tasks runs on the direct executor, so it runs as soon as the move's future is done.
- `setResourceOvercommit` may be called any number of times; each call sets both limits to the current pool's `maxBytes` again.

## Model

| member | source | states |
|---|---|---|
| QueryMemory.QueryContext.constructor | presto-main/src/main/java/io/prestosql/memory/QueryContext.java:93-119 | Limits, pool, spill budget and tracker are taken from the arguments; nothing spilled; no task registered; `Valid()` holds. |
| QueryMemory.QueryContext.SetResourceOvercommit | presto-main/src/main/java/io/prestosql/memory/QueryContext.java:122-128 | Both `maxUserMemory` and `maxTotalMemory` become the pool's `maxBytes`; nothing else changes. |
| QueryMemory.QueryContext.UpdateUserMemory | presto-main/src/main/java/io/prestosql/memory/QueryContext.java:142-150 | For `delta >= 0`: an exceeded-user-limit error (limit `maxUserMemory`, diagnostic for `userMemory`/`delta`) exactly when `userMemory + delta > maxUserMemory`, pool unchanged. Otherwise the pool is charged `delta` under `(queryId, tag)` and the pool's future is returned. For `delta < 0`: exactly `-delta` is freed under the tag and `NOT_BLOCKED` is returned. |
| QueryMemory.QueryContext.UpdateRevocableMemory | presto-main/src/main/java/io/prestosql/memory/QueryContext.java:153-160 | Never fails. The revocable ledger moves by exactly `delta` for the query, and the non-revocable ledger is untouched. A release returns `NOT_BLOCKED`. |
| QueryMemory.QueryContext.UpdateSystemMemory | presto-main/src/main/java/io/prestosql/memory/QueryContext.java:162-188 | For `delta >= 0`: an exceeded-total-limit error exactly when the pool's recorded reservation for the query plus `delta` exceeds `maxTotalMemory`, pool unchanged; the diagnostic uses that recorded reservation. Otherwise `delta` is reserved under the tag. A release frees `-delta` and returns `NOT_BLOCKED`. |
| QueryMemory.QueryContext.ReserveSpill | presto-main/src/main/java/io/prestosql/memory/QueryContext.java:191-200 | Negative bytes: illegal argument. Past `maxSpill`: spill-limit error. On either error, `spillUsed` and the tracker are unchanged. Otherwise both grow by `bytes` and the tracker's future is returned. `0 <= spillUsed <= maxSpill` is preserved. |
| QueryMemory.QueryContext.TryUpdateUserMemory | presto-main/src/main/java/io/prestosql/memory/QueryContext.java:202-217 | A release reports true and frees `-delta`. A zero delta reports true, or propagates the user-limit error (limit `maxUserMemory`, diagnostic for `userMemory` and delta 0) with the pool unchanged when the user total is already above the limit. A positive delta reports false with the pool untouched when it would pass `maxUserMemory`. Otherwise it reports true iff the pool had room, and then it is charged. |
| QueryMemory.QueryContext.FreeSpill | presto-main/src/main/java/io/prestosql/memory/QueryContext.java:219-224 | Refused exactly when `bytes > spillUsed`, with no state change. Otherwise `spillUsed` and the tracker both shrink by `bytes`. `0 <= spillUsed <= maxSpill` is preserved. |
| QueryMemory.QueryContext.SetMemoryPool | presto-main/src/main/java/io/prestosql/memory/QueryContext.java:240-251 | The identical pool changes nothing and notifies no task. A different pool removes the query from all three ledgers of the old pool (`Released`): the query's reservation and revocable reservation there become 0, it has no tag map there, both byte totals drop by what it held, and every other query keeps its entries. The new pool gains exactly those amounts in both ledgers and both byte totals, and takes over the tag map when there was one (`Absorbed`). The reference is swapped. Every registered task is notified once iff the move's future is done. |
| QueryMemory.NotifyMoreMemoryAvailable | presto-main/src/main/java/io/prestosql/memory/QueryContext.java:249 | Every task in the set receives exactly one more-memory notification. |
| QueryMemory.QueryContext.GetMemoryPool | presto-main/src/main/java/io/prestosql/memory/QueryContext.java:253-256 | Returns the current pool. |
| QueryMemory.QueryContext.AddTaskContextForTest | presto-main/src/main/java/io/prestosql/memory/QueryContext.java:259-263 | Registering `"0-" + uuid` always succeeds, with resume count 0, under that id. |
| QueryMemory.QueryContext.AddTaskContext | presto-main/src/main/java/io/prestosql/memory/QueryContext.java:265-285 | A malformed id gives the parse error and leaves the registry unchanged. Otherwise a fresh context is created with the id and its parsed resume count and put under the id, replacing any earlier one. `GetTaskContext(id)` then returns it. |
| QueryMemory.QueryContext.RemoveTaskContext | presto-main/src/main/java/io/prestosql/memory/QueryContext.java:287-290 | The id leaves the registry, a lookup of it then fails verification, and the count drops by one iff the id was registered. |
| QueryMemory.QueryContext.GetTaskContext | presto-main/src/main/java/io/prestosql/memory/QueryContext.java:305-310 | Returns the registered context iff the id is registered, otherwise a verify failure. |
| QueryMemory.QueryContext.TaskCount | presto-main/src/main/java/io/prestosql/memory/QueryContext.java:388-391 | The number of registered ids. |
| QueryMemory.QueryContext.ReserveMemory | presto-main/src/main/java/io/prestosql/memory/QueryContext.java:114-117 | User, revocable and system contexts dispatch to their update handlers and promise each handler's full outcome. User (`UserMemoryUpdated`): past `maxUserMemory`, the user-limit error with that limit and the diagnostic, pool unchanged; otherwise the pool is charged and its future returned; a release frees `-delta` with `NOT_BLOCKED`. System (`SystemMemoryUpdated`): the same against `maxTotalMemory` and the pool's recorded reservation. Revocable (`RevocableMemoryUpdated`): never fails, the revocable ledger moves by `delta`. |
| QueryMemory.QueryContext.TryReserveMemory | presto-main/src/main/java/io/prestosql/memory/QueryContext.java:114-117 | Only the user context supports try-reserve. Revocable and system give the unsupported-operation error and leave the pool alone. The user context promises the user handler's full non-blocking outcome (`UserMemoryTried`), as for `TryUpdateUserMemory`. |
| QueryMemory.QueryContext.TryReserveMemoryNotSupported | presto-main/src/main/java/io/prestosql/memory/QueryContext.java:339-342 | Always the unsupported-operation error, whatever the arguments. |
| QueryMemory.QueryContext.EnforceUserMemoryLimit | presto-main/src/main/java/io/prestosql/memory/QueryContext.java:345-350 | Fails iff `allocated + delta > maxMemory`. The error is the user-limit kind, carrying `maxMemory` and the diagnostic for `allocated`/`delta`. |
| QueryMemory.QueryContext.EnforceTotalMemoryLimit | presto-main/src/main/java/io/prestosql/memory/QueryContext.java:353-358 | Fails iff `allocated + delta > maxMemory`. The error is the total-limit kind, carrying `maxMemory` and the diagnostic. |
| QueryMemory.QueryContext.GetAdditionalFailureInfo | presto-main/src/main/java/io/prestosql/memory/QueryContext.java:361-381 | Always carries `allocated` and `delta`. The top-consumers part is present iff the pool has tagged allocations for the query, and then it meets `IsTopConsumersOf` for that map. |
| Consumers.TopConsumers | presto-main/src/main/java/io/prestosql/memory/QueryContext.java:373-378 | At most 3 entries, all from the input and non-negative, largest first, drawn without repetition. Anything omitted is no larger than anything reported. With fewer than 3 reported, every non-negative entry is reported. |
| Consumers.TopConsumersOfEnumeration | presto-main/src/main/java/io/prestosql/memory/QueryContext.java:373-378 | For any order in which the tag map is enumerated, the report is a top-3 report of the map: its tags are distinct and its bytes match the map. |
| Consumers.TaggedEntries | presto-main/src/main/java/io/prestosql/memory/QueryContext.java:373 | Lists every (tag, bytes) pair of the map exactly once, in an unspecified order. |
| Consumers.SortByBytesDesc | presto-main/src/main/java/io/prestosql/memory/QueryContext.java:374 | Sorted by bytes, largest first, and a permutation of the input. |
| Consumers.KeepNonNegativeKeepsExactly | presto-main/src/main/java/io/prestosql/memory/QueryContext.java:376 | Keeps exactly the entries with non-negative bytes. |
| Consumers.KeepNonNegativeOfSortedIsPrefix | presto-main/src/main/java/io/prestosql/memory/QueryContext.java:374-376 | On a list sorted largest first, the filter keeps a prefix, and the first entry it drops is negative. |
| TaskInstanceId.IndexOf | presto-main/src/main/java/io/prestosql/memory/QueryContext.java:268 | -1 iff the character is absent. Otherwise it is the position of its first occurrence. |
| TaskInstanceId.ResumeCount | presto-main/src/main/java/io/prestosql/memory/QueryContext.java:268 | An index error iff there is no '-'. A number-format error when the '-' comes first. A success only when the prefix before the first '-' is non-empty. |
| TaskInstanceId.ParseLongOfDecimal | presto-main/src/main/java/io/prestosql/memory/QueryContext.java:268 | Parsing the decimal rendering of any count up to `Long.MAX_VALUE` gives that count back. |
| TaskInstanceId.ResumeCountOfInstanceId | presto-main/src/main/java/io/prestosql/memory/QueryContext.java:267-268 | Round trip: the id `<n>-<rest>` has resume count `n`, whatever `rest` holds, including further '-'. |
| TaskInstanceId.ResumeCountOfTestInstanceId | presto-main/src/main/java/io/prestosql/memory/QueryContext.java:262 | `"0-" + uuid` has resume count 0. |
| SpillBudget.ReserveSpillStep | presto-main/src/main/java/io/prestosql/memory/QueryContext.java:193-198 | Succeeds iff `0 <= bytes` and `spillUsed + bytes <= maxSpill`, giving `spillUsed + bytes`. Negative bytes give an illegal argument, and otherwise the failure is the spill-limit error. From a non-negative `spillUsed` and a `maxSpill` that fits in a `long`, the result stays within `[0, Long.MAX_VALUE]`. |
| SpillBudget.FreeSpillStep | presto-main/src/main/java/io/prestosql/memory/QueryContext.java:221-222 | Succeeds iff `bytes <= spillUsed`, giving `spillUsed - bytes >= 0`; otherwise an illegal argument. |
| SpillBudget.ReplaySpillStaysInBudget | presto-main/src/main/java/io/prestosql/memory/QueryContext.java:191-224 | From a state within budget, any sequence of reserve/free calls with non-negative frees stays within `[0, maxSpill]`. |
| SpillBudget.NegativeFreeLeavesBudget | presto-main/src/main/java/io/prestosql/memory/QueryContext.java:219-224 | A free of -1 byte from an empty budget of 0 is accepted and leaves `spillUsed` at 1, so the sign precondition is needed. |
| SpillBudget.ReserveSpillStepAsWritten | presto-main/src/main/java/io/prestosql/memory/QueryContext.java:194-198 | The check as written on 64-bit `long`s: a success leaves the wrapped sum, which is at most `maxSpill`. |
| SpillBudget.ReserveSpillAsWrittenWrapsPastLimit | presto-main/src/main/java/io/prestosql/memory/QueryContext.java:194 | With `spillUsed = 1`, `maxSpill = 1` and `bytes = Long.MAX_VALUE`, the code as written accepts and sets `spillUsed` to `Long.MIN_VALUE`. The exact check refuses. |
| SpillBudget.ReserveSpillAsWrittenAgreesWithoutOverflow | presto-main/src/main/java/io/prestosql/memory/QueryContext.java:194 | Whenever the sum fits in a `long`, the code as written and the exact check agree. |
| Common.WrapLong | presto-main/src/main/java/io/prestosql/memory/QueryContext.java:194 | Java `long` arithmetic: the identity inside the `long` range, and otherwise congruent to the exact value modulo 2^64. |

## Left out

- Locking and concurrency are not modelled: the `synchronized` monitors, the lock-order argument against deadlock, and the concurrent map. Each method is modelled as one sequential step.
- Executors and later completion are not modelled: `ListenableFuture`, `directExecutor`, the notification and yield executors, and `GcMonitor`. A future is a done flag. The listener added in `setMemoryPool` is modelled as running at once when the move's future is done, and a move that completes later never notifies.
- The memory-context tree is not modelled (`MemoryTrackingContext`, root aggregated contexts, `GUARANTEED_MEMORY`, `getQueryMemoryContext`). Its user total is an input parameter, and its wiring to the handlers is the `MemoryKind` dispatch.
- Task creation is not modelled (`TaskContext.createTaskContext`, `TaskSnapshotManager`, `SnapshotUtils`, the serde factory and the timer flags). A task context is reduced to its id, its resume count and its notification count.
- The visitors `accept` / `acceptChildren` and `getQueryId` are not modelled: they only hand out the fields.
- Message formatting is not modelled. `succinctBytes` and `DataSize` rendering and the message strings are replaced by the structured diagnostic, a list of (tag, bytes).
- Unicode digits are not modelled: only ASCII digits are accepted when the resume count is parsed.
- The spiller test `TestFileSingleStreamSpiller.java` is not modelled. The spiller it exercises is not part of this model, and the test is otherwise file I/O and timing.
- QueryMemory.QueryContext.FreeSpill: requires `bytes >= 0`, a sign the code does not check. `SpillBudget.NegativeFreeLeavesBudget` shows that without it a free can take `spillUsed` above `maxSpill`.
- QueryMemory.QueryContext.ReserveSpill: compares the exact sum `spillUsed + bytes`, not the 64-bit sum the code computes. The code as written is `SpillBudget.ReserveSpillStepAsWritten`; see Findings.
- QueryMemory.QueryContext.EnforceUserMemoryLimit: compares the exact sum of the current total and `delta` with the limit, without 64-bit wrap-around.
- QueryMemory.QueryContext.EnforceTotalMemoryLimit: compares the exact sum of the current total and `delta` with the limit, without 64-bit wrap-around.
- QueryMemory.QueryContext.TryUpdateUserMemory: compares the exact sum of the current total and `delta` with the limit, without 64-bit wrap-around.
- QueryMemory.QueryContext.UpdateSystemMemory: compares the exact sum of the current total and `delta` with the limit, without 64-bit wrap-around.
- QueryMemory.QueryContext.UpdateUserMemory: a release of `Long.MIN_VALUE` frees the exact magnitude 2^63, where Java's `-delta` wraps back to `Long.MIN_VALUE`.
- QueryMemory.QueryContext.UpdateRevocableMemory: a release of `Long.MIN_VALUE` frees the exact magnitude 2^63, where Java's `-delta` wraps back to `Long.MIN_VALUE`.
- QueryMemory.QueryContext.UpdateSystemMemory: a release of `Long.MIN_VALUE` frees the exact magnitude 2^63, where Java's `-delta` wraps back to `Long.MIN_VALUE`.

## Findings

| source | as written | input that shows it | evidently intended | confidence | as-written member | corrected member |
|---|---|---|---|---|---|---|
| presto-main/src/main/java/io/prestosql/memory/QueryContext.java:194 | `spillUsed + bytes > maxSpill` is evaluated on 64-bit `long`s, so a large `bytes` wraps the sum negative and passes the check; `spillUsed += bytes` then wraps too | `spillUsed = 1`, `maxSpill = 1`, `bytes = Long.MAX_VALUE`: accepted, `spillUsed` becomes `Long.MIN_VALUE` | refuse any reservation whose exact total exceeds `maxSpill` (e.g. compare `bytes > maxSpill - spillUsed`), keeping `0 <= spillUsed <= maxSpill` | low, not executed | SpillBudget.ReserveSpillAsWrittenWrapsPastLimit | SpillBudget.ReserveSpillStep |
