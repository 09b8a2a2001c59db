/**
 * The process-wide allocator of mutex identities: a monotonic `u64` counter,
 * each identity being the counter value plus one, with a hard stop once the
 * counter reaches 2^63.
 *
 * Both copies of the allocator (the `thread-checked-lock` crate and the older
 * `thread-checked-mutex` crate) have this behaviour; the newer one wraps the
 * `NonZeroU64` in a `MutexID` struct, which changes nothing observable.
 */
module MutexIds {
  import opened Wrappers

  /** 2^64: one more than `u64::MAX`. */
  const U64_LIMIT: nat := 0x1_0000_0000_0000_0000

  /** `MAX_MUTEXES_PER_PROCESS`, 2^63. */
  const MAX_MUTEXES_PER_PROCESS: nat := 0x8000_0000_0000_0000

  /** The message of the fatal assertion in `next_id`. */
  const EXHAUSTED_MESSAGE: string := "Only 2^63 thread-checked mutexes may be created in one process"

  /** `MutexID`, a `NonZeroU64`. */
  type MutexID = n: nat | 0 < n < U64_LIMIT witness 1

  ghost predicate StrictlyIncreasing(s: seq<nat>) {
    forall i, j :: 0 <= i < j < |s| ==> s[i] < s[j]
  }

  /**
   * The arithmetic half of `next_id`: the assertion on the counter value, then
   * `counter + 1`. The identity is non-zero and at most 2^63, so `counter + 1`
   * never overflows a `u64`.
   */
  function IdFromCounter(counter: nat): (r: Outcome<MutexID>)
    requires counter < U64_LIMIT
    ensures r.Returned? <==> counter < MAX_MUTEXES_PER_PROCESS
    ensures r.Returned? ==> 1 <= r.value <= MAX_MUTEXES_PER_PROCESS && r.value - 1 == counter
    ensures r.Panicked? ==> r.message == EXHAUSTED_MESSAGE
  {
    if counter < MAX_MUTEXES_PER_PROCESS then Returned(counter + 1)
    else Panicked(EXHAUSTED_MESSAGE)
  }

  /** Distinct counter values that both pass the assertion give ordered, hence distinct, identities. */
  lemma IdFromCounterMonotonic(c1: nat, c2: nat)
    requires c1 < c2 < MAX_MUTEXES_PER_PROCESS
    ensures IdFromCounter(c1).Returned? && IdFromCounter(c2).Returned?
    ensures IdFromCounter(c1).value < IdFromCounter(c2).value
  {
  }

  /** A strictly increasing sequence of identities never repeats one. */
  lemma StrictlyIncreasingIsDistinct(s: seq<nat>)
    requires StrictlyIncreasing(s)
    ensures forall i, j :: 0 <= i < |s| && 0 <= j < |s| && i != j ==> s[i] != s[j]
  {
  }

  /** The static `ID_COUNTER`, with the identities issued so far kept as ghost state. */
  class IdCounter {
    /** The current value of the `u64` counter. */
    var counter: nat
    /** Whether the counter has ever wrapped from `u64::MAX` back to `0`. */
    ghost var wrapped: bool
    /** Every identity `NextId` has returned, oldest first. */
    ghost var issued: seq<MutexID>

    ghost predicate Valid()
      reads this
    {
      && counter < U64_LIMIT
      && (!wrapped ==>
            && StrictlyIncreasing(issued)
            && forall i :: 0 <= i < |issued| ==> issued[i] <= counter)
    }

    /** The counter starts at `0`. */
    constructor ()
      ensures Valid() && counter == 0 && !wrapped && issued == []
    {
      counter := 0;
      wrapped := false;
      issued := [];
    }

    /**
     * `next_counter`: return the current value and increment it, wrapping at
     * 2^64. The atomic `fetch_add` and the `Mutex<u64>` fallback with
     * `wrapping_add` behave the same when calls are sequential.
     */
    method NextCounter() returns (c: nat)
      requires Valid()
      modifies this
      ensures Valid()
      ensures c == old(counter)
      ensures counter == if c == U64_LIMIT - 1 then 0 else c + 1
      ensures wrapped == (old(wrapped) || c == U64_LIMIT - 1)
      ensures issued == old(issued)
    {
      c := counter;
      if counter == U64_LIMIT - 1 {
        wrapped := true;
      }
      counter := (counter + 1) % U64_LIMIT;
    }

    /**
     * `next_id`: take the next counter value, assert it is below 2^63 (a panic
     * otherwise, after the counter was already incremented), and return it plus
     * one. Until the counter wraps, the new identity is larger than every
     * identity issued before, so no identity is ever handed out twice.
     */
    method NextId() returns (r: Outcome<MutexID>)
      requires Valid()
      modifies this
      ensures Valid()
      ensures r.Returned? <==> old(counter) < MAX_MUTEXES_PER_PROCESS
      ensures r.Returned? ==> r.value == old(counter) + 1
      ensures r.Panicked? ==> r.message == EXHAUSTED_MESSAGE
      ensures counter == if old(counter) == U64_LIMIT - 1 then 0 else old(counter) + 1
      ensures issued == if r.Returned? then old(issued) + [r.value] else old(issued)
      ensures r.Returned? && !old(wrapped) ==>
                forall i :: 0 <= i < |old(issued)| ==> old(issued)[i] < r.value
    {
      var c := NextCounter();
      r := IdFromCounter(c);
      if r.Returned? {
        issued := issued + [r.value];
      }
    }
  }

  /**
   * The first identity issued in a process is 1, and the second one differs
   * from it (the allocator's own test).
   */
  method FirstIdsScenario() returns (first: Outcome<MutexID>, second: Outcome<MutexID>)
    ensures first == Returned(1)
    ensures second.Returned? && second.value != first.value
  {
    var ids := new IdCounter();
    first := ids.NextId();
    second := ids.NextId();
  }
}
