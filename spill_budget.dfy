/** The per-query spill-disk budget: the decisions `reserveSpill` and
    `freeSpill` take on `spillUsed`, as pure functions, and what a sequence
    of them keeps. */
module SpillBudget {
  import opened Common

  /** `reserveSpill(bytes)`: a negative amount is an illegal argument, an
      amount that would take the query past `maxSpill` exceeds the spill
      limit, anything else is added to `spillUsed`. The comparison is on
      exact integers (see ReserveSpillStepAsWritten for 64-bit `long`s). */
  function ReserveSpillStep(spillUsed: int, maxSpill: int, bytes: int): (r: Result<int>)
    ensures r.Ok? <==> 0 <= bytes && spillUsed + bytes <= maxSpill
    ensures r.Ok? ==> r.value == spillUsed + bytes && spillUsed <= r.value <= maxSpill
    ensures bytes < 0 ==> r == Err(IllegalArgument)
    ensures 0 <= bytes && spillUsed + bytes > maxSpill ==> r == Err(ExceededSpillLimit(maxSpill))
    ensures 0 <= spillUsed && maxSpill <= LONG_MAX && r.Ok? ==> 0 <= r.value <= LONG_MAX
  {
    if bytes < 0 then Err(IllegalArgument)
    else if spillUsed + bytes > maxSpill then Err(ExceededSpillLimit(maxSpill))
    else Ok(spillUsed + bytes)
  }

  /** `freeSpill(bytes)`: rejected when it would take `spillUsed` below zero.
      The sign of `bytes` is not checked. The subtraction is exact; on Java
      `long`s it differs only when `bytes < spillUsed - Long.MAX_VALUE`
      (for instance `spillUsed` 0 and `bytes` Long.MIN_VALUE), which a
      non-negative `bytes` never reaches. */
  function FreeSpillStep(spillUsed: int, bytes: int): (r: Result<int>)
    ensures r.Ok? <==> bytes <= spillUsed
    ensures r.Ok? ==> r.value == spillUsed - bytes && r.value >= 0
    ensures r.Err? ==> r == Err(IllegalArgument)
  {
    if spillUsed - bytes < 0 then Err(IllegalArgument) else Ok(spillUsed - bytes)
  }

  datatype SpillOp = ReserveOp(bytes: int) | FreeOp(bytes: int)

  /** `spillUsed` after one call; a call that fails leaves it as it was. */
  function ApplySpill(spillUsed: int, maxSpill: int, op: SpillOp): (r: int) {
    var step := match op
      case ReserveOp(b) => ReserveSpillStep(spillUsed, maxSpill, b)
      case FreeOp(b) => FreeSpillStep(spillUsed, b);
    if step.Ok? then step.value else spillUsed
  }

  /** `spillUsed` after a sequence of calls. */
  function ReplaySpill(spillUsed: int, maxSpill: int, ops: seq<SpillOp>): (r: int)
    decreases |ops|
  {
    if ops == [] then spillUsed
    else ReplaySpill(ApplySpill(spillUsed, maxSpill, ops[0]), maxSpill, ops[1..])
  }

  ghost predicate FreesNonNegative(ops: seq<SpillOp>) {
    forall i :: 0 <= i < |ops| && ops[i].FreeOp? ==> ops[i].bytes >= 0
  }

  /** Any sequence of reserveSpill/freeSpill calls whose frees are
      non-negative keeps `0 <= spillUsed <= maxSpill`. */
  lemma {:induction false} ReplaySpillStaysInBudget(spillUsed: int, maxSpill: int, ops: seq<SpillOp>)
    requires 0 <= spillUsed <= maxSpill
    requires FreesNonNegative(ops)
    ensures 0 <= ReplaySpill(spillUsed, maxSpill, ops) <= maxSpill
    decreases |ops|
  {
    if ops != [] {
      var next := ApplySpill(spillUsed, maxSpill, ops[0]);
      assert FreesNonNegative(ops[1..]) by {
        forall i | 0 <= i < |ops[1..]| && ops[1..][i].FreeOp? ensures ops[1..][i].bytes >= 0 {
          assert ops[1..][i] == ops[i + 1];
        }
      }
      ReplaySpillStaysInBudget(next, maxSpill, ops[1..]);
    }
  }

  /** Why the frees must be non-negative: freeing -1 byte from an empty
      budget of 0 is accepted and leaves `spillUsed` at 1, past `maxSpill`. */
  lemma NegativeFreeLeavesBudget()
    ensures FreeSpillStep(0, -1) == Ok(1)
    ensures ReplaySpill(0, 0, [FreeOp(-1)]) == 1
  {
  }

  /** `reserveSpill` as written on `long`s: `spillUsed + bytes` wraps around
      before it is compared with `maxSpill`, and `spillUsed += bytes` wraps too. */
  function ReserveSpillStepAsWritten(spillUsed: Long, maxSpill: Long, bytes: Long): (r: Result<int>)
    ensures r.Ok? ==> r.value == WrapLong(spillUsed + bytes) && r.value <= maxSpill
  {
    if bytes < 0 then Err(IllegalArgument)
    else if WrapLong(spillUsed + bytes) > maxSpill then Err(ExceededSpillLimit(maxSpill))
    else Ok(WrapLong(spillUsed + bytes))
  }

  /** With 1 byte used of a 1-byte budget, reserving Long.MAX_VALUE bytes
      wraps the sum to Long.MIN_VALUE, so the check lets it through and
      `spillUsed` becomes negative; the exact comparison refuses it. */
  lemma ReserveSpillAsWrittenWrapsPastLimit()
    ensures ReserveSpillStepAsWritten(1, 1, LONG_MAX) == Ok(LONG_MIN)
    ensures ReserveSpillStep(1, 1, LONG_MAX) == Err(ExceededSpillLimit(1))
  {
  }

  /** Where the sum does not overflow, the code as written and the exact
      comparison agree. */
  lemma ReserveSpillAsWrittenAgreesWithoutOverflow(spillUsed: Long, maxSpill: Long, bytes: Long)
    requires LONG_MIN <= spillUsed + bytes <= LONG_MAX
    ensures ReserveSpillStepAsWritten(spillUsed, maxSpill, bytes) == ReserveSpillStep(spillUsed, maxSpill, bytes)
  {
  }
}
