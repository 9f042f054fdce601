/** The per-query resource governor: admission of user, system and revocable
    memory against the query's limits, the spill-disk budget, memory-pool
    migration, the one-shot overcommit mode, the failure diagnostic, and the
    registry of task contexts keyed by task instance id. */
module QueryMemory {
  import opened Common
  import opened Consumers
  import opened Pool
  import opened TaskInstanceId
  import opened SpillBudget

  /** The three aggregated memory contexts, each wired to its own handler. */
  datatype MemoryKind = User | Revocable | System

  /** A registered task: its instance id, the resume count parsed from it,
      and how many times it was told that more memory may be available. */
  class TaskContext {
    const taskInstanceId: string
    const resumeCount: Long
    var moreMemoryNotifications: nat

    constructor (taskInstanceId: string, resumeCount: Long)
      ensures this.taskInstanceId == taskInstanceId && this.resumeCount == resumeCount
      ensures moreMemoryNotifications == 0
    {
      this.taskInstanceId := taskInstanceId;
      this.resumeCount := resumeCount;
      moreMemoryNotifications := 0;
    }

    method MoreMemoryAvailable()
      modifies this
      ensures moreMemoryNotifications == old(moreMemoryNotifications) + 1
    {
      moreMemoryNotifications := moreMemoryNotifications + 1;
    }
  }

  /** Tells every task in `tasks` once that more memory may be available. */
  method NotifyMoreMemoryAvailable(tasks: set<TaskContext>)
    modifies tasks
    ensures forall t :: t in tasks ==> t.moreMemoryNotifications == old(t.moreMemoryNotifications) + 1
  {
    var pending := tasks;
    while pending != {}
      invariant pending <= tasks
      invariant forall t :: t in tasks ==>
        t.moreMemoryNotifications == old(t.moreMemoryNotifications) + (if t in pending then 0 else 1)
      decreases pending
    {
      var t :| t in pending;
      t.MoreMemoryAvailable();
      pending := pending - {t};
    }
  }

  /** `info` is the diagnostic for an allocation of `delta` on top of
      `allocatedBytes`, given the pool's tagged allocations for the query. */
  ghost predicate DescribesFailure(info: FailureInfo, allocatedBytes: int, delta: int, allocations: Option<map<Tag, int>>) {
    && info.allocatedBytes == allocatedBytes
    && info.delta == delta
    && (allocations.None? <==> info.topConsumers.None?)
    && (allocations.Some? && info.topConsumers.Some? ==>
          IsTopConsumersOf(info.topConsumers.value, allocations.value))
  }

  class QueryContext {
    const queryId: QueryId
    const maxSpill: Bytes
    const spillSpaceTracker: SpillSpaceTracker
    var maxUserMemory: Bytes
    var maxTotalMemory: Bytes
    var memoryPool: MemoryPool
    var spillUsed: Long
    var taskContexts: map<string, TaskContext>

    /** The spill budget holds, distinct ids name distinct task contexts, and
        each context carries its own id and the resume count parsed from it. */
    ghost predicate Valid()
      reads this
    {
      && 0 <= spillUsed <= maxSpill
      && (forall a, b :: a in taskContexts && b in taskContexts && a != b ==> taskContexts[a] != taskContexts[b])
      && (forall id :: id in taskContexts ==>
            taskContexts[id].taskInstanceId == id && ResumeCount(id) == Ok(taskContexts[id].resumeCount))
    }

    constructor (queryId: QueryId, maxUserMemory: Bytes, maxTotalMemory: Bytes, memoryPool: MemoryPool,
                 maxSpill: Bytes, spillSpaceTracker: SpillSpaceTracker)
      ensures Valid()
      ensures this.queryId == queryId && this.maxSpill == maxSpill && this.spillSpaceTracker == spillSpaceTracker
      ensures this.maxUserMemory == maxUserMemory && this.maxTotalMemory == maxTotalMemory
      ensures this.memoryPool == memoryPool
      ensures spillUsed == 0 && taskContexts == map[]
    {
      this.queryId := queryId;
      this.maxUserMemory := maxUserMemory;
      this.maxTotalMemory := maxTotalMemory;
      this.memoryPool := memoryPool;
      this.maxSpill := maxSpill;
      this.spillSpaceTracker := spillSpaceTracker;
      spillUsed := 0;
      taskContexts := map[];
    }

    /** Lets the query use the whole pool: both limits become its maximum. */
    method SetResourceOvercommit()
      modifies this`maxUserMemory, this`maxTotalMemory
      ensures maxUserMemory == memoryPool.maxBytes && maxTotalMemory == memoryPool.maxBytes
    {
      maxUserMemory := memoryPool.maxBytes;
      maxTotalMemory := memoryPool.maxBytes;
    }

    /** The failure diagnostic: the allocation and delta, plus the top
        consumers when the pool has tagged allocations for this query. */
    method GetAdditionalFailureInfo(allocatedBytes: int, delta: int) returns (info: FailureInfo)
      ensures DescribesFailure(info, allocatedBytes, delta, memoryPool.TaggedFor(queryId))
    {
      var allocations := memoryPool.TaggedFor(queryId);
      if allocations.None? {
        return FailureInfo(allocatedBytes, delta, None);
      }
      var entries := TaggedEntries(allocations.value);
      TopConsumersOfEnumeration(entries, allocations.value);
      info := FailureInfo(allocatedBytes, delta, Some(TopConsumers(entries)));
    }

    /** Fails with the user-limit error exactly when `allocatedBytes + delta`
        exceeds `maxMemory`. */
    method EnforceUserMemoryLimit(allocatedBytes: int, delta: int, maxMemory: int) returns (failure: Option<Failure>)
      ensures failure.Some? <==> allocatedBytes + delta > maxMemory
      ensures failure.Some? ==>
        && failure.value.ExceededUserMemoryLimit?
        && failure.value.limit == maxMemory
        && DescribesFailure(failure.value.info, allocatedBytes, delta, memoryPool.TaggedFor(queryId))
    {
      if allocatedBytes + delta > maxMemory {
        var info := GetAdditionalFailureInfo(allocatedBytes, delta);
        return Some(ExceededUserMemoryLimit(maxMemory, info));
      }
      return None;
    }

    /** Fails with the total-limit error exactly when `allocatedBytes + delta`
        exceeds `maxMemory`. */
    method EnforceTotalMemoryLimit(allocatedBytes: int, delta: int, maxMemory: int) returns (failure: Option<Failure>)
      ensures failure.Some? <==> allocatedBytes + delta > maxMemory
      ensures failure.Some? ==>
        && failure.value.ExceededTotalMemoryLimit?
        && failure.value.limit == maxMemory
        && DescribesFailure(failure.value.info, allocatedBytes, delta, memoryPool.TaggedFor(queryId))
    {
      if allocatedBytes + delta > maxMemory {
        var info := GetAdditionalFailureInfo(allocatedBytes, delta);
        return Some(ExceededTotalMemoryLimit(maxMemory, info));
      }
      return None;
    }

    /** What the user handler does with `delta` on top of the user total
        `userMemory`: a reservation past `maxUserMemory` fails with the
        user-limit error and leaves the pool alone, any other reservation is
        charged and returns the pool's future, a release frees `-delta` and
        returns the done future. */
    twostate predicate UserMemoryUpdated(pool: MemoryPool, allocationTag: Tag, delta: int, userMemory: int, new r: Result<Future>)
      reads this, pool
    {
      && (delta >= 0 && userMemory + delta > maxUserMemory ==>
            && r.Err? && r.error.ExceededUserMemoryLimit? && r.error.limit == maxUserMemory
            && DescribesFailure(r.error.info, userMemory, delta, pool.TaggedFor(queryId))
            && unchanged(pool))
      && (delta >= 0 && userMemory + delta <= maxUserMemory ==>
            && pool.Charged(queryId, allocationTag, delta)
            && r == Ok(Future(pool.FreeBytes() > 0)))
      && (delta < 0 ==> pool.Charged(queryId, allocationTag, delta) && r == Ok(NotBlocked))
    }

    /** What the revocable handler does: the revocable ledger moves by
        `delta`, a reservation returns the pool's future, a release the done one. */
    twostate predicate RevocableMemoryUpdated(pool: MemoryPool, delta: int, new f: Future)
      reads this, pool
    {
      && pool.ChargedRevocable(queryId, delta)
      && (delta >= 0 ==> f == Future(pool.FreeBytes() > 0))
      && (delta < 0 ==> f == NotBlocked)
    }

    /** What the system handler does: as the user handler, but the limit is
        `maxTotalMemory` and the total is the pool's recorded reservation. */
    twostate predicate SystemMemoryUpdated(pool: MemoryPool, allocationTag: Tag, delta: int, new r: Result<Future>)
      reads this, pool
    {
      && (delta >= 0 && old(pool.QueryReservation(queryId)) + delta > maxTotalMemory ==>
            && r.Err? && r.error.ExceededTotalMemoryLimit? && r.error.limit == maxTotalMemory
            && DescribesFailure(r.error.info, pool.QueryReservation(queryId), delta, pool.TaggedFor(queryId))
            && unchanged(pool))
      && (delta >= 0 && old(pool.QueryReservation(queryId)) + delta <= maxTotalMemory ==>
            && pool.Charged(queryId, allocationTag, delta)
            && r == Ok(Future(pool.FreeBytes() > 0)))
      && (delta < 0 ==> pool.Charged(queryId, allocationTag, delta) && r == Ok(NotBlocked))
    }

    /** What the user handler's non-blocking path does: a release reports
        true; a zero delta behaves as the blocking handler and reports true
        unless the user total is already past the limit; a positive delta
        past the limit reports false and leaves the pool alone; any other
        reports whether the pool had room, and only then is charged. */
    twostate predicate UserMemoryTried(pool: MemoryPool, allocationTag: Tag, delta: int, userMemory: int, new r: Result<bool>)
      reads this, pool
    {
      && (delta < 0 ==> r == Ok(true) && pool.Charged(queryId, allocationTag, delta))
      && (delta == 0 && userMemory > maxUserMemory ==>
            && r.Err? && r.error.ExceededUserMemoryLimit? && r.error.limit == maxUserMemory
            && DescribesFailure(r.error.info, userMemory, 0, pool.TaggedFor(queryId))
            && unchanged(pool))
      && (delta == 0 && userMemory <= maxUserMemory ==>
            r == Ok(true) && pool.Charged(queryId, allocationTag, 0))
      && (delta > 0 && userMemory + delta > maxUserMemory ==> r == Ok(false) && unchanged(pool))
      && (delta > 0 && userMemory + delta <= maxUserMemory ==>
            && r.Ok?
            && (r.value <==> old(pool.FreeBytes()) - delta >= 0)
            && (r.value ==> pool.Charged(queryId, allocationTag, delta))
            && (!r.value ==> unchanged(pool)))
    }

    /** The user-memory handler. `userMemory` is the user aggregated
        context's current total. A reservation is admitted unless it would
        take that total past `maxUserMemory`; a release always succeeds. */
    method UpdateUserMemory(allocationTag: Tag, delta: Long, userMemory: Long) returns (r: Result<Future>)
      modifies memoryPool
      ensures UserMemoryUpdated(memoryPool, allocationTag, delta, userMemory, r)
    {
      if delta >= 0 {
        var failure := EnforceUserMemoryLimit(userMemory, delta, maxUserMemory);
        if failure.Some? {
          return Err(failure.value);
        }
        var future := memoryPool.Reserve(queryId, allocationTag, delta);
        return Ok(future);
      }
      memoryPool.Free(queryId, allocationTag, -(delta as int));
      return Ok(NotBlocked);
    }

    /** The revocable-memory handler: no per-query ceiling, never fails. */
    method UpdateRevocableMemory(allocationTag: Tag, delta: Long) returns (f: Future)
      modifies memoryPool
      ensures RevocableMemoryUpdated(memoryPool, delta, f)
    {
      if delta >= 0 {
        f := memoryPool.ReserveRevocable(queryId, delta);
        return;
      }
      memoryPool.FreeRevocable(queryId, -(delta as int));
      return NotBlocked;
    }

    /** The system-memory handler. The limit check reads the pool's recorded
        reservation for the query, not the user aggregated context. */
    method UpdateSystemMemory(allocationTag: Tag, delta: Long) returns (r: Result<Future>)
      modifies memoryPool
      ensures SystemMemoryUpdated(memoryPool, allocationTag, delta, r)
    {
      var totalMemory := memoryPool.QueryReservation(queryId);
      if delta >= 0 {
        var failure := EnforceTotalMemoryLimit(totalMemory, delta, maxTotalMemory);
        if failure.Some? {
          return Err(failure.value);
        }
        var future := memoryPool.Reserve(queryId, allocationTag, delta);
        return Ok(future);
      }
      memoryPool.Free(queryId, allocationTag, -(delta as int));
      return Ok(NotBlocked);
    }

    /** The user handler's non-blocking path. A release (or a zero delta)
        goes through UpdateUserMemory and reports true; a positive delta
        reports false, leaving the pool alone, when it would pass the user
        limit, and otherwise reports whether the pool's try-reserve took it. */
    method TryUpdateUserMemory(allocationTag: Tag, delta: Long, userMemory: Long) returns (r: Result<bool>)
      modifies memoryPool
      ensures UserMemoryTried(memoryPool, allocationTag, delta, userMemory, r)
    {
      if delta <= 0 {
        var update := UpdateUserMemory(allocationTag, delta, userMemory);
        if update.Err? {
          return Err(update.error);
        }
        // A release must come back already done.
        if delta < 0 && !update.value.done {
          r := Err(VerifyFailure);
        } else {
          r := Ok(true);
        }
        return;
      }
      if userMemory + delta > maxUserMemory {
        return Ok(false);
      }
      var reserved := memoryPool.TryReserve(queryId, allocationTag, delta);
      return Ok(reserved);
    }

    /** The try-reserve handler of the revocable and system contexts. */
    function TryReserveMemoryNotSupported(allocationTag: Tag, bytes: Long): (r: Result<bool>)
      ensures r == Err(Unsupported)
    {
      Err(Unsupported)
    }

    /** `reserveMemory` of the handler wired to each aggregated context. */
    method ReserveMemory(kind: MemoryKind, allocationTag: Tag, delta: Long, userMemory: Long) returns (r: Result<Future>)
      modifies memoryPool
      ensures kind.User? ==> UserMemoryUpdated(memoryPool, allocationTag, delta, userMemory, r)
      ensures kind.Revocable? ==> r.Ok? && RevocableMemoryUpdated(memoryPool, delta, r.value)
      ensures kind.System? ==> SystemMemoryUpdated(memoryPool, allocationTag, delta, r)
    {
      match kind
      case User =>
        r := UpdateUserMemory(allocationTag, delta, userMemory);
      case Revocable =>
        var f := UpdateRevocableMemory(allocationTag, delta);
        r := Ok(f);
      case System =>
        r := UpdateSystemMemory(allocationTag, delta);
    }

    /** `tryReserveMemory` of the handler wired to each aggregated context:
        only the user context supports it. */
    method TryReserveMemory(kind: MemoryKind, allocationTag: Tag, delta: Long, userMemory: Long) returns (r: Result<bool>)
      modifies memoryPool
      ensures !kind.User? ==> r == Err(Unsupported) && unchanged(memoryPool)
      ensures kind.User? ==> UserMemoryTried(memoryPool, allocationTag, delta, userMemory, r)
    {
      if kind.User? {
        r := TryUpdateUserMemory(allocationTag, delta, userMemory);
      } else {
        r := TryReserveMemoryNotSupported(allocationTag, delta);
      }
    }

    /** Reserves `bytes` of the query's spill budget and forwards them to the
        node-wide tracker. */
    method ReserveSpill(bytes: Long) returns (r: Result<Future>)
      requires Valid()
      modifies this`spillUsed, spillSpaceTracker
      ensures Valid()
      ensures bytes < 0 ==> r == Err(IllegalArgument)
      ensures bytes >= 0 && old(spillUsed) + bytes > maxSpill ==> r == Err(ExceededSpillLimit(maxSpill))
      ensures r.Err? ==> spillUsed == old(spillUsed) && unchanged(spillSpaceTracker)
      ensures r.Ok? <==> ReserveSpillStep(old(spillUsed), maxSpill, bytes).Ok?
      ensures r.Ok? ==>
        && spillUsed == old(spillUsed) + bytes
        && spillSpaceTracker.reservedBytes == old(spillSpaceTracker.reservedBytes) + bytes
        && r.value == NotBlocked
    {
      var step := ReserveSpillStep(spillUsed, maxSpill, bytes);
      if step.Err? {
        return Err(step.error);
      }
      var future := spillSpaceTracker.Reserve(bytes);
      spillUsed := step.value;
      return Ok(future);
    }

    /** Returns `bytes` of the query's spill budget and to the tracker;
        refused when more would be freed than is reserved. */
    method FreeSpill(bytes: Long) returns (r: Result<()>)
      requires Valid()
      requires bytes >= 0
      modifies this`spillUsed, spillSpaceTracker
      ensures Valid()
      ensures r.Ok? <==> FreeSpillStep(old(spillUsed), bytes).Ok?
      ensures r.Err? ==> r == Err(IllegalArgument) && spillUsed == old(spillUsed) && unchanged(spillSpaceTracker)
      ensures r.Ok? ==>
        && spillUsed == old(spillUsed) - bytes
        && spillSpaceTracker.reservedBytes == old(spillSpaceTracker.reservedBytes) - bytes
    {
      var step := FreeSpillStep(spillUsed, bytes);
      if step.Err? {
        return Err(step.error);
      }
      spillUsed := step.value;
      spillSpaceTracker.Free(bytes);
      return Ok(());
    }

    /** Moves the query to `newMemoryPool`. The same pool is a no-op;
        otherwise the old pool hands the query's reservation over, the
        reference is swapped, and once the move's future is done every
        registered task is told more memory may be available. */
    method SetMemoryPool(newMemoryPool: MemoryPool)
      modifies this`memoryPool, memoryPool, newMemoryPool, taskContexts.Values
      ensures memoryPool == newMemoryPool
      ensures old(memoryPool) == newMemoryPool ==>
        unchanged(newMemoryPool) && forall t :: t in old(taskContexts.Values) ==> unchanged(t)
      ensures old(memoryPool) != newMemoryPool ==>
        && old(memoryPool).Released(queryId)
        && newMemoryPool.Absorbed(queryId, old(memoryPool.QueryReservation(queryId)),
             old(memoryPool.RevocableReservation(queryId)), old(memoryPool.TaggedFor(queryId)))
        && old(memoryPool).QueryReservation(queryId) == 0
        && old(memoryPool).RevocableReservation(queryId) == 0
        && old(memoryPool).TaggedFor(queryId).None?
        && newMemoryPool.QueryReservation(queryId)
             == old(newMemoryPool.QueryReservation(queryId)) + old(memoryPool.QueryReservation(queryId))
        && newMemoryPool.RevocableReservation(queryId)
             == old(newMemoryPool.RevocableReservation(queryId)) + old(memoryPool.RevocableReservation(queryId))
        && (old(memoryPool.TaggedFor(queryId)).Some? ==>
              newMemoryPool.TaggedFor(queryId) == old(memoryPool.TaggedFor(queryId)))
        && forall t :: t in old(taskContexts.Values) ==>
             t.moreMemoryNotifications ==
               old(t.moreMemoryNotifications) + (if newMemoryPool.FreeBytes() > 0 then 1 else 0)
    {
      if memoryPool == newMemoryPool {
        return;
      }
      var future := memoryPool.MoveQuery(queryId, newMemoryPool);
      memoryPool := newMemoryPool;
      if future.done {
        NotifyMoreMemoryAvailable(taskContexts.Values);
      }
    }

    function GetMemoryPool(): (pool: MemoryPool)
      reads this
      ensures pool == memoryPool
    {
      memoryPool
    }

    /** Registers a new task context under `taskInstanceId`, whose resume
        count is the number before its first '-'. A malformed id throws
        before anything is registered. */
    method AddTaskContext(taskInstanceId: string) returns (r: Result<TaskContext>)
      requires Valid()
      modifies this`taskContexts
      ensures Valid()
      ensures ResumeCount(taskInstanceId).Err? ==>
        r == Err(ResumeCount(taskInstanceId).error) && taskContexts == old(taskContexts)
      ensures ResumeCount(taskInstanceId).Ok? ==>
        && r.Ok? && fresh(r.value)
        && r.value.taskInstanceId == taskInstanceId
        && r.value.resumeCount == ResumeCount(taskInstanceId).value
        && r.value.moreMemoryNotifications == 0
        && taskContexts == old(taskContexts)[taskInstanceId := r.value]
        && GetTaskContext(taskInstanceId) == Ok(r.value)
    {
      var resumeCount := ResumeCount(taskInstanceId);
      if resumeCount.Err? {
        return Err(resumeCount.error);
      }
      var taskContext := new TaskContext(taskInstanceId, resumeCount.value);
      taskContexts := taskContexts[taskInstanceId := taskContext];
      return Ok(taskContext);
    }

    /** The test overload: a random UUID behind the resume count 0. */
    method AddTaskContextForTest(uuid: string) returns (r: Result<TaskContext>)
      requires Valid()
      modifies this`taskContexts
      ensures Valid()
      ensures r.Ok? && fresh(r.value) && r.value.resumeCount == 0
      ensures taskContexts == old(taskContexts)["0-" + uuid := r.value]
    {
      ResumeCountOfTestInstanceId(uuid);
      r := AddTaskContext("0-" + uuid);
    }

    method RemoveTaskContext(taskInstanceId: string)
      requires Valid()
      modifies this`taskContexts
      ensures Valid()
      ensures taskContexts == old(taskContexts) - {taskInstanceId}
      ensures GetTaskContext(taskInstanceId) == Err(VerifyFailure)
      ensures TaskCount() == old(TaskCount()) - (if taskInstanceId in old(taskContexts) then 1 else 0)
    {
      taskContexts := taskContexts - {taskInstanceId};
    }

    /** The registered context, or a verify failure for an unknown id. */
    function GetTaskContext(taskInstanceId: string): (r: Result<TaskContext>)
      reads this
      ensures r.Ok? <==> taskInstanceId in taskContexts
      ensures r.Ok? ==> r.value == taskContexts[taskInstanceId]
      ensures r.Err? ==> r.error == VerifyFailure
    {
      if taskInstanceId in taskContexts then Ok(taskContexts[taskInstanceId]) else Err(VerifyFailure)
    }

    function TaskCount(): (n: nat)
      reads this
      ensures n == |taskContexts|
    {
      |taskContexts|
    }
  }
}
