/** Shared vocabulary of the query memory governor: Java `long` byte counts,
    the failures the governor raises, and the futures it hands back. */
module Common {

  const LONG_MIN: int := -0x8000_0000_0000_0000
  const LONG_MAX: int := 0x7FFF_FFFF_FFFF_FFFF

  /** A Java `long`. */
  type Long = x: int | LONG_MIN <= x <= LONG_MAX

  /** A size taken from a `DataSize`: a `long` that is never negative. */
  type Bytes = x: int | 0 <= x <= LONG_MAX

  type QueryId = string
  type Tag = string

  /** Two's-complement wrap-around of a mathematical integer into a `long`,
      which is what Java's `+` on two `long`s yields. */
  function WrapLong(x: int): (r: Long)
    ensures LONG_MIN <= x <= LONG_MAX ==> r == x
    ensures (x - r) % 0x1_0000_0000_0000_0000 == 0
  {
    (x - LONG_MIN) % 0x1_0000_0000_0000_0000 + LONG_MIN
  }

  datatype Option<T> = None | Some(value: T)

  /** One entry of a pool's per-tag allocation map for a query. */
  datatype TagBytes = TagBytes(tag: Tag, bytes: int)

  /** The diagnostic attached to an exceeded-memory-limit failure: the
      allocation already held, the requested delta, and (when the pool has
      tagged allocations for the query) the top consumers. */
  datatype FailureInfo = FailureInfo(allocatedBytes: int, delta: int, topConsumers: Option<seq<TagBytes>>)

  /** What the Java code throws. */
  datatype Failure =
    | ExceededUserMemoryLimit(limit: int, info: FailureInfo)
    | ExceededTotalMemoryLimit(limit: int, info: FailureInfo)
    | ExceededSpillLimit(limit: int)
    | IllegalArgument          // checkArgument
    | Unsupported              // UnsupportedOperationException
    | VerifyFailure            // Guava verify
    | StringIndexOutOfBounds   // String.substring with a bad end index
    | NumberFormat             // Long.valueOf on a malformed number

  datatype Result<T> = Ok(value: T) | Err(error: Failure)

  /** A `ListenableFuture<?>` reduced to whether it is already done. */
  datatype Future = Future(done: bool)

  /** The already-completed future `NOT_BLOCKED`. */
  const NotBlocked: Future := Future(true)
}
