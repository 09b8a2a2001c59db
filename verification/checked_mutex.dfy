/**
 * `ThreadCheckedMutex<T>` seen from one thread. The underlying `std` mutex is
 * abstracted to `UnderlyingState` and a poison flag. The thread's registry of
 * held mutexes is a `LockedMutexesInner` object that the thread owns. The mutex
 * and the registry are kept coherent: the underlying lock is held by this thread
 * exactly when the mutex's identity is registered.
 *
 * Other threads act only through `OtherThreadAcquires` and `OtherThreadReleases`.
 * A blocking `Lock` that waits for another holder receives, as a parameter,
 * whether that holder panicked while holding the lock.
 */
module CheckedMutex {
  import opened Wrappers
  import opened MutexIds
  import opened LockedMutexes
  import opened LockErrors

  /** Who holds the underlying `std::sync::Mutex`. */
  datatype UnderlyingState = Free | HeldByOther | HeldByMe

  /** `ThreadCheckedMutexGuard`: it remembers the identity of the mutex it unlocks. */
  datatype Guard = Guard(mutexId: MutexID)

  class ThreadCheckedMutex<T> {
    const mutexId: MutexID
    var state: UnderlyingState
    var poisoned: bool
    /** The protected value. */
    var data: T

    /** The registry agrees with the underlying lock about this thread holding it. */
    ghost predicate CoherentWith(registry: LockedMutexesInner)
      reads this, registry, registry.inlineIds
    {
      registry.Valid() && (state == HeldByMe <==> mutexId in registry.held)
    }

    /** `Mutex::new(t)` with an already allocated identity: unlocked and not poisoned. */
    constructor (id: MutexID, t: T)
      ensures mutexId == id && state == Free && !poisoned && data == t
    {
      mutexId := id;
      state := Free;
      poisoned := false;
      data := t;
    }

    /** The guard or the poison error that carries it, whichever an acquisition returns. */
    function AcquiredResult(): (r: LockResult<Guard>)
      reads this
      ensures r.Ok? <==> !poisoned
      ensures r.Ok? ==> r.value == Guard(mutexId)
      ensures r.Err? ==> r.error == LockError.Poisoned(PoisonError(Guard(mutexId)))
    {
      if poisoned then Err(LockError.Poisoned(PoisonError(Guard(mutexId)))) else Ok(Guard(mutexId))
    }

    /**
     * `lock`: register first. If this thread already held the mutex, fail with
     * `LockedByCurrentThread` and leave the underlying lock and the registry
     * alone. Otherwise wait for any other holder, acquire, and return the guard,
     * wrapped in `Poisoned` when the mutex is poisoned. The mutex becomes
     * poisoned if the holder being waited for panicked.
     */
    method Lock(registry: LockedMutexesInner, otherPanics: bool) returns (r: LockResult<Guard>)
      requires CoherentWith(registry)
      modifies this, registry, registry.inlineIds
      ensures CoherentWith(registry) && registry.inlineIds == old(registry.inlineIds)
      ensures data == old(data)
      ensures r == Err(LockError.LockedByCurrentThread) <==> old(state) == HeldByMe
      ensures old(state) == HeldByMe ==>
                && state == old(state) && poisoned == old(poisoned)
                && registry.inlineIds[..] == old(registry.inlineIds[..])
                && registry.idSet == old(registry.idSet)
      ensures old(state) != HeldByMe ==>
                && state == HeldByMe
                && registry.held == old(registry.held) + {mutexId}
                && poisoned == (old(poisoned) || (old(state) == HeldByOther && otherPanics))
                && r == AcquiredResult()
    {
      var registered := registry.RegisterLocked(mutexId);
      if registered {
        if state == HeldByOther && otherPanics {
          poisoned := true;
        }
        state := HeldByMe;
        r := AcquiredResult();
      } else {
        r := Err(LockError.LockedByCurrentThread);
      }
    }

    /**
     * `try_lock`: consult the registry before the underlying lock. A mutex this
     * thread holds gives `LockedByCurrentThread`. A mutex another thread holds
     * gives `WouldBlock` and leaves the registry alone. A free mutex is acquired
     * and registered; that registration always reports a change.
     */
    method TryLock(registry: LockedMutexesInner) returns (r: TryLockResult<Guard>)
      requires CoherentWith(registry)
      modifies this, registry, registry.inlineIds
      ensures CoherentWith(registry) && registry.inlineIds == old(registry.inlineIds)
      ensures data == old(data) && poisoned == old(poisoned)
      ensures r == Err(TryLockError.LockedByCurrentThread) <==> old(state) == HeldByMe
      ensures r == Err(TryLockError.WouldBlock) <==> old(state) == HeldByOther
      ensures old(state) != Free ==>
                && state == old(state)
                && registry.inlineIds[..] == old(registry.inlineIds[..])
                && registry.idSet == old(registry.idSet)
      ensures old(state) == Free ==>
                && state == HeldByMe
                && registry.held == old(registry.held) + {mutexId}
                && r == AcquiredResult().MapErr(TryLockErrorFromLockPoison)
    {
      if registry.LockedByCurrentThread(mutexId) {
        return Err(TryLockError.LockedByCurrentThread);
      }
      if state == Free {
        var registered := registry.RegisterLocked(mutexId);
        assert registered;
        state := HeldByMe;
        r := if poisoned then Err(TryLockError.Poisoned(PoisonError(Guard(mutexId)))) else Ok(Guard(mutexId));
      } else {
        r := Err(TryLockError.WouldBlock);
      }
    }

    /**
     * Dropping a guard: unregister the identity, which always reports that it
     * was held (so the debug assertion never fires), then release the
     * underlying lock, poisoning it when the thread is panicking.
     */
    method DropGuard(guard: Guard, registry: LockedMutexesInner, panicking: bool) returns (wasLocked: bool)
      requires CoherentWith(registry) && state == HeldByMe && guard.mutexId == mutexId
      modifies this, registry, registry.inlineIds
      ensures CoherentWith(registry) && registry.inlineIds == old(registry.inlineIds)
      ensures wasLocked
      ensures state == Free && poisoned == (old(poisoned) || panicking) && data == old(data)
      ensures registry.held == old(registry.held) - {mutexId}
    {
      wasLocked := registry.RegisterUnlocked(guard.mutexId);
      if panicking {
        poisoned := true;
      }
      state := Free;
    }

    /** `locked_by_current_thread`: a registry query, true exactly while this thread holds the lock. */
    function LockedByCurrentThread(registry: LockedMutexesInner): (b: bool)
      requires CoherentWith(registry)
      reads this, registry, registry.inlineIds
      ensures b <==> state == HeldByMe
      ensures b <==> mutexId in registry.held
    {
      registry.LockedByCurrentThread(mutexId)
    }

    /** `is_poisoned`. */
    function IsPoisoned(): (b: bool)
      reads this
      ensures b <==> AcquiredResult().Err?
    {
      poisoned
    }

    /** `clear_poison`: only the poison flag changes. */
    method ClearPoison()
      modifies this
      ensures !poisoned && state == old(state) && data == old(data)
    {
      poisoned := false;
    }

    /**
     * `Deref` on a live guard: the protected value, which is also what
     * `into_inner` would hand out with the poison ignored.
     */
    function GuardRead(guard: Guard): (v: T)
      requires state == HeldByMe && guard.mutexId == mutexId
      reads this
      ensures v == data
      ensures AccessResultIgnorePoison(IntoInner()) == Ok(v)
    {
      data
    }

    /** `DerefMut` on a live guard: only the protected value changes. */
    method GuardWrite(guard: Guard, v: T)
      requires state == HeldByMe && guard.mutexId == mutexId
      modifies this
      ensures data == v && state == old(state) && poisoned == old(poisoned)
      ensures GuardRead(guard) == v
    {
      data := v;
    }

    /** The result `std`'s `into_inner` and `get_mut` give, before the error is converted. */
    function StdAccess(): (r: Result<T, PoisonError<T>>)
      reads this
      ensures r.Ok? <==> !poisoned
      ensures r.Ok? ==> r.value == data
      ensures r.Err? ==> r.error.inner == data
    {
      if poisoned then Err(PoisonError(data)) else Ok(data)
    }

    /**
     * `into_inner`: the value, wrapped in `AccessError` when the mutex is
     * poisoned. No registry is involved, and ignoring the poison recovers the value.
     */
    function IntoInner(): (r: AccessResult<T>)
      reads this
      ensures r.Ok? <==> !poisoned
      ensures AccessResultIgnorePoison(r) == Ok(data)
      ensures r.Err? ==> r.error == AccessErrorFromPoison(PoisonError(data))
    {
      StdAccess().MapErr(AccessErrorFromPoison)
    }

    /** `get_mut`: the same result as `into_inner`, without consuming the mutex or consulting the registry. */
    function GetMut(): (r: AccessResult<T>)
      reads this
      ensures r.Ok? <==> !poisoned
      ensures AccessResultIgnorePoison(r) == Ok(data)
      ensures r.Err? ==> r.error == AccessErrorFromPoison(PoisonError(data))
    {
      StdAccess().MapErr(AccessErrorFromPoison)
    }

    /** Another thread takes the free underlying lock. */
    method OtherThreadAcquires(registry: LockedMutexesInner)
      requires CoherentWith(registry) && state == Free
      modifies this
      ensures CoherentWith(registry)
      ensures state == HeldByOther && poisoned == old(poisoned) && data == old(data)
    {
      state := HeldByOther;
    }

    /** Another thread drops its guard, poisoning the mutex if it is panicking. */
    method OtherThreadReleases(registry: LockedMutexesInner, panicking: bool)
      requires CoherentWith(registry) && state == HeldByOther
      modifies this
      ensures CoherentWith(registry)
      ensures state == Free && poisoned == (old(poisoned) || panicking) && data == old(data)
    {
      if panicking {
        poisoned := true;
      }
      state := Free;
    }
  }

  /** `From<PoisonError<Guard>>` for the try-lock error, applied to the lock error an acquisition builds. */
  function TryLockErrorFromLockPoison(e: LockError<Guard>): (r: TryLockError<Guard>)
    ensures e.Poisoned? ==> r == TryLockErrorFromPoison(e.poison)
    ensures e.LockedByCurrentThread? ==> r == TryLockError.LockedByCurrentThread
  {
    match e
    case Poisoned(poison) => TryLockErrorFromPoison(poison)
    case LockedByCurrentThread => TryLockError.LockedByCurrentThread
  }

  /**
   * `ThreadCheckedMutex::new`: take the next identity (which may panic once
   * identities are exhausted) and build an unlocked, unpoisoned mutex. While
   * the counter has not wrapped and the thread only holds identities already
   * issued, the new mutex is not held by this thread.
   */
  method New<T>(t: T, ids: IdCounter, registry: LockedMutexesInner) returns (r: Outcome<ThreadCheckedMutex<T>>)
    requires ids.Valid() && registry.Valid()
    modifies ids
    ensures ids.Valid()
    ensures r.Returned? <==> old(ids.counter) < MAX_MUTEXES_PER_PROCESS
    ensures r.Panicked? ==> r.message == EXHAUSTED_MESSAGE
    ensures r.Returned? ==>
              && fresh(r.value)
              && r.value.mutexId == old(ids.counter) + 1
              && r.value.state == Free && !r.value.poisoned && r.value.data == t
    ensures ids.issued == if r.Returned? then old(ids.issued) + [r.value.mutexId] else old(ids.issued)
    ensures r.Returned? && !old(ids.wrapped) && (forall id :: id in registry.held ==> id in old(ids.issued)) ==>
              && r.value.mutexId !in registry.held
              && r.value.CoherentWith(registry)
  {
    var id := ids.NextId();
    match id
    case Panicked(message) =>
      r := Panicked(message);
    case Returned(mutexId) =>
      var m := new ThreadCheckedMutex(mutexId, t);
      r := Returned(m);
  }

  /**
   * The single-thread tests: a new mutex is not held; `lock` succeeds; a
   * second `lock` fails with `LockedByCurrentThread`; dropping the guard
   * unlocks; `lock` succeeds again. `locked_by_current_thread` is true exactly
   * while a guard lives.
   */
  method LockLockUnlockLockScenario()
    returns (before: bool, first: LockResult<Guard>, during: bool, second: LockResult<Guard>,
             afterDrop: bool, third: LockResult<Guard>, atEnd: bool)
    ensures !before && first.Ok? && during
    ensures second == Err(LockError.LockedByCurrentThread)
    ensures !afterDrop && third.Ok? && atEnd
  {
    var ids := new IdCounter();
    var registry := new LockedMutexesInner(4);
    var created := New(0, ids, registry);
    var m := created.value;
    before := m.LockedByCurrentThread(registry);
    first := m.Lock(registry, false);
    during := m.LockedByCurrentThread(registry);
    second := m.Lock(registry, false);
    var _ := m.DropGuard(first.value, registry, false);
    afterDrop := m.LockedByCurrentThread(registry);
    third := m.Lock(registry, false);
    atEnd := m.LockedByCurrentThread(registry);
  }

  /**
   * A value written through one guard is read back through the same guard,
   * and after the guard is dropped `into_inner` hands it out.
   */
  method GuardWriteReadScenario() returns (read: int, inner: AccessResult<int>)
    ensures read == 7
    ensures inner == Ok(7)
  {
    var ids := new IdCounter();
    var registry := new LockedMutexesInner(4);
    var created := New(0, ids, registry);
    var m := created.value;
    var guard := m.Lock(registry, false);
    m.GuardWrite(guard.value, 7);
    read := m.GuardRead(guard.value);
    var _ := m.DropGuard(guard.value, registry, false);
    inner := m.IntoInner();
  }

  /**
   * The `locked_by_current_thread` and `would_block` tests on one thread:
   * while another thread holds the mutex, `try_lock` gives `WouldBlock` and
   * registers nothing; once it releases, `try_lock` succeeds, and a second
   * `try_lock` gives `LockedByCurrentThread`.
   */
  method WouldBlockScenario()
    returns (blocked: TryLockResult<Guard>, registeredWhileBlocked: bool,
             acquired: TryLockResult<Guard>, again: TryLockResult<Guard>)
    ensures blocked == Err(TryLockError.WouldBlock) && !registeredWhileBlocked
    ensures acquired.Ok?
    ensures again == Err(TryLockError.LockedByCurrentThread)
  {
    var ids := new IdCounter();
    var registry := new LockedMutexesInner(4);
    var created := New((), ids, registry);
    var m := created.value;
    m.OtherThreadAcquires(registry);
    blocked := m.TryLock(registry);
    registeredWhileBlocked := m.LockedByCurrentThread(registry);
    m.OtherThreadReleases(registry, false);
    acquired := m.TryLock(registry);
    again := m.TryLock(registry);
  }

  /**
   * Poison: a guard dropped while panicking poisons the mutex; the next `lock`
   * still acquires it but returns the guard inside `Poisoned`, which
   * `ignore_poison` unwraps. After `clear_poison`, `lock` succeeds plainly,
   * and the protected value written through the guard is what `into_inner` returns.
   */
  method PoisonScenario()
    returns (poisonedAfterPanic: bool, relocked: LockResult<Guard>, recovered: PoisonlessLockResult<Guard>,
             poisonedAfterClear: bool, clean: LockResult<Guard>, inner: AccessResult<int>)
    ensures poisonedAfterPanic && relocked.Err? && relocked.error.Poisoned?
    ensures recovered.Ok? && relocked.error.poison.inner == recovered.value
    ensures !poisonedAfterClear && clean.Ok?
    ensures inner == Ok(7)
  {
    var ids := new IdCounter();
    var registry := new LockedMutexesInner(0);
    var created := New(0, ids, registry);
    var m := created.value;
    var first := m.Lock(registry, false);
    var _ := m.DropGuard(first.value, registry, true);
    poisonedAfterPanic := m.IsPoisoned();
    relocked := m.Lock(registry, false);
    recovered := LockResultIgnorePoison(relocked);
    m.GuardWrite(recovered.value, 7);
    var _ := m.DropGuard(recovered.value, registry, false);
    m.ClearPoison();
    poisonedAfterClear := m.IsPoisoned();
    clean := m.Lock(registry, false);
    var _ := m.DropGuard(clean.value, registry, false);
    inner := m.IntoInner();
  }
}
