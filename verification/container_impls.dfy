/**
 * The generic-container adapters around the thread-checked mutex: the
 * `ErasedLockError` that forgets a poison error's payload, the container
 * operations of `Arc<ThreadCheckedMutex<T>>`, and the `HandlePoisonedResult`
 * helpers on `std`'s `Result<T, PoisonError<T>>`.
 */
module ContainerImpls {
  import opened Wrappers
  import opened LockedMutexes
  import opened LockErrors
  import opened CheckedMutex

  /** `ErasedLockError`: a lock error whose poison payload was dropped. */
  datatype ErasedLockError = Poisoned | LockedByCurrentThread

  const ERASED_LOCK_ERROR_PANIC: string := "ErasedLockError was poison"

  /** The message of `Result::unwrap` on a `PoisonError`. */
  const UNWRAP_POISON_PANIC: string := "called `Result::unwrap()` on an `Err` value: PoisonError { .. }"

  /** `From<LockError<T>> for ErasedLockError`: keeps the variant, drops the payload. */
  function Erase<T>(e: LockError<T>): (r: ErasedLockError)
    ensures r.Poisoned? <==> e.Poisoned?
    ensures r.LockedByCurrentThread? <==> e.LockedByCurrentThread?
  {
    match e
    case Poisoned(_) => ErasedLockError.Poisoned
    case LockedByCurrentThread => ErasedLockError.LockedByCurrentThread
  }

  /** `ErasedLockError::panic_if_poison`: panics on `Poisoned`, the identity otherwise. */
  function ErasedPanicIfPoison(e: ErasedLockError): (r: Outcome<ErasedLockError>)
    ensures r.Panicked? <==> e.Poisoned?
    ensures r.Panicked? ==> r.message == ERASED_LOCK_ERROR_PANIC
    ensures r.Returned? ==> r.value == e
  {
    match e
    case Poisoned => Panicked(ERASED_LOCK_ERROR_PANIC)
    case LockedByCurrentThread => Returned(ErasedLockError.LockedByCurrentThread)
  }

  /**
   * Erasing then panicking on poison panics exactly when `LockError::panic_if_poison`
   * does, and otherwise gives the erasure of what it returns.
   */
  lemma EraseCommutesWithPanicIfPoison<T>(e: LockError<T>)
    ensures ErasedPanicIfPoison(Erase(e)).Panicked? <==> LockErrorPanicIfPoison(e).Panicked?
    ensures LockErrorPanicIfPoison(e).Returned? ==>
              ErasedPanicIfPoison(Erase(e)) == Returned(Erase<()>(LockErrorPanicIfPoison(e).value))
  {
  }

  /**
   * `try_get_ref`, and `try_get_mut`, which has the same body: `lock` with the
   * error erased. It fails exactly when `lock` fails, and a poison error is
   * reported rather than ignored.
   */
  method TryGetRef<T>(m: ThreadCheckedMutex<T>, registry: LockedMutexesInner, otherPanics: bool)
    returns (r: Result<Guard, ErasedLockError>)
    requires m.CoherentWith(registry)
    modifies m, registry, registry.inlineIds
    ensures m.CoherentWith(registry) && registry.inlineIds == old(registry.inlineIds)
    ensures r == Err(ErasedLockError.LockedByCurrentThread) <==> old(m.state) == HeldByMe
    ensures m.data == old(m.data)
    ensures old(m.state) == HeldByMe ==>
              && m.state == old(m.state) && m.poisoned == old(m.poisoned)
              && registry.inlineIds[..] == old(registry.inlineIds[..])
              && registry.idSet == old(registry.idSet)
              && registry.held == old(registry.held)
    ensures old(m.state) != HeldByMe ==>
              && m.state == HeldByMe
              && registry.held == old(registry.held) + {m.mutexId}
              && m.poisoned == (old(m.poisoned) || (old(m.state) == HeldByOther && otherPanics))
              && (r.Ok? <==> !m.poisoned)
              && (r.Ok? ==> r.value == Guard(m.mutexId))
  {
    var locked := m.Lock(registry, otherPanics);
    r := locked.MapErr(Erase);
  }

  /**
   * The container's `into_inner`: `None` when this `Arc` is not the only
   * owner, otherwise the protected value, poisoned or not.
   */
  function ArcIntoInner<T>(uniqueOwner: bool, m: ThreadCheckedMutex<T>): (r: Option<T>)
    reads m
    ensures r.Some? <==> uniqueOwner
    ensures r.Some? ==> r.value == m.data
  {
    if !uniqueOwner then None
    else
      // The ignored-poison result is always `Ok`: its error type is uninhabited.
      Some(AccessResultIgnorePoison(m.IntoInner()).value)
  }

  /** `panic_if_poisoned`: `unwrap`, so the value on `Ok` and a panic on a poison error. */
  function PanicIfPoisoned<T>(res: Result<T, PoisonError<T>>): (r: Outcome<T>)
    ensures r.Panicked? <==> res.Err?
    ensures r.Returned? ==> r.value == res.value
    ensures r.Panicked? ==> r.message == UNWRAP_POISON_PANIC
  {
    match res
    case Ok(t) => Returned(t)
    case Err(_) => Panicked(UNWRAP_POISON_PANIC)
  }

  /** `ignore_poisoned`: the value, whether or not it came wrapped in a poison error. */
  function IgnorePoisoned<T>(res: Result<T, PoisonError<T>>): (r: T)
    ensures res.Ok? ==> r == res.value
    ensures res.Err? ==> r == res.error.inner
  {
    match res
    case Ok(t) => t
    case Err(poison) => poison.inner
  }

  /** The two helpers agree whenever `panic_if_poisoned` returns. */
  lemma PoisonedHelpersAgree<T>(res: Result<T, PoisonError<T>>)
    ensures PanicIfPoisoned(res).Returned? ==> PanicIfPoisoned(res).value == IgnorePoisoned(res)
  {
  }
}
