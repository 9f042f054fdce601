/** The node-wide collaborators a query context charges: a memory pool that
    keeps a ledger of reserved bytes per query and per allocation tag, and a
    spill-space tracker that counts reserved disk bytes. Their own source is
    not part of this model; these classes keep just the ledger the query
    context reads and writes, and the rule for when a reservation blocks. */
module Pool {
  import opened Common

  /** A query's entry in a per-query ledger, 0 when absent. */
  function Lookup(totals: map<QueryId, int>, q: QueryId): (r: int) {
    if q in totals then totals[q] else 0
  }

  /** A query's allocation under one tag, 0 when absent. */
  function TagLookup(tagged: map<QueryId, map<Tag, int>>, q: QueryId, tag: Tag): (r: int) {
    if q in tagged && tag in tagged[q] then tagged[q][tag] else 0
  }

  /** Charges `d` bytes to query `q` (a zero charge leaves the ledger as is). */
  function AddTotal(totals: map<QueryId, int>, q: QueryId, d: int): (r: map<QueryId, int>)
    ensures Lookup(r, q) == Lookup(totals, q) + d
    ensures forall p :: p != q ==> (p in r <==> p in totals) && (p in r ==> r[p] == totals[p])
    ensures d == 0 ==> r == totals
  {
    if d == 0 then totals else totals[q := Lookup(totals, q) + d]
  }

  /** Charges `d` bytes to query `q` under `tag`: that one slot moves by `d`,
      every other query and every other tag of `q` keeps its value. */
  function AddTagged(tagged: map<QueryId, map<Tag, int>>, q: QueryId, tag: Tag, d: int): (r: map<QueryId, map<Tag, int>>)
    ensures TagLookup(r, q, tag) == TagLookup(tagged, q, tag) + d
    ensures forall t :: t != tag ==> TagLookup(r, q, t) == TagLookup(tagged, q, t)
    ensures forall p :: p != q ==> (p in r <==> p in tagged) && (p in r ==> r[p] == tagged[p])
    ensures d == 0 ==> r == tagged
    ensures d != 0 ==> q in r
  {
    if d == 0 then tagged
    else
      var own := if q in tagged then tagged[q] else map[];
      tagged[q := own[tag := TagLookup(tagged, q, tag) + d]]
  }

  class MemoryPool {
    const maxBytes: Bytes
    var reservedBytes: int
    var reservedRevocableBytes: int
    var queryReservations: map<QueryId, int>
    var revocableReservations: map<QueryId, int>
    var taggedAllocations: map<QueryId, map<Tag, int>>

    constructor (maxBytes: Bytes)
      ensures this.maxBytes == maxBytes
      ensures reservedBytes == 0 && reservedRevocableBytes == 0
      ensures queryReservations == map[] && revocableReservations == map[] && taggedAllocations == map[]
    {
      this.maxBytes := maxBytes;
      reservedBytes, reservedRevocableBytes := 0, 0;
      queryReservations, revocableReservations, taggedAllocations := map[], map[], map[];
    }

    function FreeBytes(): (r: int)
      reads this
    {
      maxBytes - reservedBytes - reservedRevocableBytes
    }

    /** The pool's recorded (non-revocable) reservation for query `q`. */
    function QueryReservation(q: QueryId): (r: int)
      reads this
    {
      Lookup(queryReservations, q)
    }

    function RevocableReservation(q: QueryId): (r: int)
      reads this
    {
      Lookup(revocableReservations, q)
    }

    /** The per-tag allocations of query `q`, `None` when the pool has none. */
    function TaggedFor(q: QueryId): (r: Option<map<Tag, int>>)
      reads this
    {
      if q in taggedAllocations then Some(taggedAllocations[q]) else None
    }

    /** The ledger moved by `d` bytes of non-revocable memory for `(q, tag)`. */
    twostate predicate Charged(q: QueryId, tag: Tag, d: int)
      reads this
    {
      && reservedBytes == old(reservedBytes) + d
      && queryReservations == AddTotal(old(queryReservations), q, d)
      && taggedAllocations == AddTagged(old(taggedAllocations), q, tag, d)
      && reservedRevocableBytes == old(reservedRevocableBytes)
      && revocableReservations == old(revocableReservations)
    }

    /** The ledger moved by `d` bytes of revocable memory for `q`. */
    twostate predicate ChargedRevocable(q: QueryId, d: int)
      reads this
    {
      && reservedRevocableBytes == old(reservedRevocableBytes) + d
      && revocableReservations == AddTotal(old(revocableReservations), q, d)
      && reservedBytes == old(reservedBytes)
      && queryReservations == old(queryReservations)
      && taggedAllocations == old(taggedAllocations)
    }

    /** Query `q` has left this pool: its three ledger entries are gone and
        the byte totals dropped by what it held; every other query keeps its
        entries. */
    twostate predicate Released(q: QueryId)
      reads this
    {
      && queryReservations == old(queryReservations) - {q}
      && revocableReservations == old(revocableReservations) - {q}
      && taggedAllocations == old(taggedAllocations) - {q}
      && reservedBytes == old(reservedBytes) - old(QueryReservation(q))
      && reservedRevocableBytes == old(reservedRevocableBytes) - old(RevocableReservation(q))
    }

    /** Query `q` has arrived in this pool with `moved` bytes, `movedRevocable`
        revocable bytes and, when it had one, its tag map; every other query
        keeps its entries. */
    twostate predicate Absorbed(q: QueryId, moved: int, movedRevocable: int, tags: Option<map<Tag, int>>)
      reads this
    {
      && queryReservations == AddTotal(old(queryReservations), q, moved)
      && revocableReservations == AddTotal(old(revocableReservations), q, movedRevocable)
      && taggedAllocations == (if tags.Some? then old(taggedAllocations)[q := tags.value] else old(taggedAllocations))
      && reservedBytes == old(reservedBytes) + moved
      && reservedRevocableBytes == old(reservedRevocableBytes) + movedRevocable
    }

    /** Blocking reserve: always recorded; the future is done unless the pool
        is now exhausted. */
    method Reserve(q: QueryId, tag: Tag, bytes: nat) returns (f: Future)
      modifies this
      ensures Charged(q, tag, bytes)
      ensures f == Future(FreeBytes() > 0)
    {
      queryReservations := AddTotal(queryReservations, q, bytes);
      taggedAllocations := AddTagged(taggedAllocations, q, tag, bytes);
      reservedBytes := reservedBytes + bytes;
      f := Future(FreeBytes() > 0);
    }

    /** Non-blocking reserve: recorded only when it fits in the free bytes. */
    method TryReserve(q: QueryId, tag: Tag, bytes: nat) returns (ok: bool)
      modifies this
      ensures ok <==> old(FreeBytes()) - bytes >= 0
      ensures ok ==> Charged(q, tag, bytes)
      ensures !ok ==> unchanged(this)
    {
      if FreeBytes() - bytes < 0 {
        return false;
      }
      queryReservations := AddTotal(queryReservations, q, bytes);
      taggedAllocations := AddTagged(taggedAllocations, q, tag, bytes);
      reservedBytes := reservedBytes + bytes;
      ok := true;
    }

    method Free(q: QueryId, tag: Tag, bytes: nat)
      modifies this
      ensures Charged(q, tag, -(bytes as int))
    {
      queryReservations := AddTotal(queryReservations, q, -(bytes as int));
      taggedAllocations := AddTagged(taggedAllocations, q, tag, -(bytes as int));
      reservedBytes := reservedBytes - bytes;
    }

    method ReserveRevocable(q: QueryId, bytes: nat) returns (f: Future)
      modifies this
      ensures ChargedRevocable(q, bytes)
      ensures f == Future(FreeBytes() > 0)
    {
      revocableReservations := AddTotal(revocableReservations, q, bytes);
      reservedRevocableBytes := reservedRevocableBytes + bytes;
      f := Future(FreeBytes() > 0);
    }

    method FreeRevocable(q: QueryId, bytes: nat)
      modifies this
      ensures ChargedRevocable(q, -(bytes as int))
    {
      revocableReservations := AddTotal(revocableReservations, q, -(bytes as int));
      reservedRevocableBytes := reservedRevocableBytes - bytes;
    }

    /** Moving query `q` to `target`: hands the query's whole reservation,
        revocable reservation and tag map over to `target`; the future is the
        one of target's reserve. */
    method MoveQuery(q: QueryId, target: MemoryPool) returns (f: Future)
      requires target != this
      modifies this, target
      ensures Released(q)
      ensures target.Absorbed(q, old(QueryReservation(q)), old(RevocableReservation(q)), old(TaggedFor(q)))
      ensures f == Future(target.FreeBytes() > 0)
    {
      var moved, movedRevocable, tags := QueryReservation(q), RevocableReservation(q), TaggedFor(q);
      target.Absorb(q, moved, movedRevocable, tags);
      Release(q);
      f := Future(target.FreeBytes() > 0);
    }

    /** The receiving half of a move: the query's amounts are added here. */
    method Absorb(q: QueryId, moved: int, movedRevocable: int, tags: Option<map<Tag, int>>)
      modifies this
      ensures Absorbed(q, moved, movedRevocable, tags)
    {
      queryReservations := AddTotal(queryReservations, q, moved);
      revocableReservations := AddTotal(revocableReservations, q, movedRevocable);
      if tags.Some? {
        taggedAllocations := taggedAllocations[q := tags.value];
      }
      reservedBytes := reservedBytes + moved;
      reservedRevocableBytes := reservedRevocableBytes + movedRevocable;
    }

    /** The sending half of a move: the query's entries leave this pool. */
    method Release(q: QueryId)
      modifies this
      ensures Released(q)
    {
      reservedBytes := reservedBytes - QueryReservation(q);
      reservedRevocableBytes := reservedRevocableBytes - RevocableReservation(q);
      queryReservations := queryReservations - {q};
      revocableReservations := revocableReservations - {q};
      taggedAllocations := taggedAllocations - {q};
    }
  }

  /** The node-wide disk budget for spilling: a counter of reserved bytes. */
  class SpillSpaceTracker {
    var reservedBytes: int

    constructor ()
      ensures reservedBytes == 0
    {
      reservedBytes := 0;
    }

    method Reserve(bytes: nat) returns (f: Future)
      modifies this
      ensures reservedBytes == old(reservedBytes) + bytes
      ensures f == NotBlocked
    {
      reservedBytes := reservedBytes + bytes;
      f := NotBlocked;
    }

    method Free(bytes: nat)
      modifies this
      ensures reservedBytes == old(reservedBytes) - bytes
    {
      reservedBytes := reservedBytes - bytes;
    }
  }
}
