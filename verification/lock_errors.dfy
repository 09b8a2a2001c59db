/**
 * The error taxonomy of the thread-checked mutex: `LockError`, `TryLockError`
 * and `AccessError`, their `ignore_poison` / `panic_if_poison` helpers (on the
 * errors and on the result aliases), the conversions from `PoisonError` and
 * equality on the poisonless forms.
 *
 * The `thread-checked-lock` crate and the older `thread-checked-mutex` crate
 * define this taxonomy twice with the same semantics; this one module models both.
 *
 * Rust's `Infallible` makes the `Poisoned` variant of `LockError<Infallible>`
 * and `TryLockError<Infallible>` uninhabited; here the poisonless forms are
 * subset types that exclude `Poisoned`. `AccessError<Infallible>` has no value
 * at all, so a poisonless access result is a `Result` proved to be `Ok`.
 */
module LockErrors {
  import opened Wrappers

  /** std's `PoisonError<T>`: the guard or value that was obtained despite the poison. */
  datatype PoisonError<T> = PoisonError(inner: T)

  datatype LockError<T> = Poisoned(poison: PoisonError<T>) | LockedByCurrentThread

  datatype TryLockError<T> = Poisoned(poison: PoisonError<T>) | LockedByCurrentThread | WouldBlock

  datatype AccessError<T> = AccessError(poison: PoisonError<T>)

  /** `LockError<Infallible>`. */
  type PoisonlessLockError = e: LockError<()> | !e.Poisoned? witness LockError.LockedByCurrentThread

  /** `TryLockError<Infallible>`. */
  type PoisonlessTryLockError = e: TryLockError<()> | !e.Poisoned? witness TryLockError.WouldBlock

  type LockResult<T> = Result<T, LockError<T>>
  type PoisonlessLockResult<T> = Result<T, PoisonlessLockError>
  type TryLockResult<T> = Result<T, TryLockError<T>>
  type PoisonlessTryLockResult<T> = Result<T, PoisonlessTryLockError>
  type AccessResult<T> = Result<T, AccessError<T>>

  const LOCK_ERROR_PANIC: string := "LockError was poison"
  const TRY_LOCK_ERROR_PANIC: string := "TryLockError was poison"
  const ACCESS_ERROR_PANIC: string := "AccessError is poison"

  /** `map_err` with a function that may panic: a panic in `f` is the panic of the whole call. */
  function MapErrOrPanic<T, E, E2>(res: Result<T, E>, f: E -> Outcome<E2>): (r: Outcome<Result<T, E2>>)
    ensures res.Ok? ==> r == Returned(Ok(res.value))
    ensures res.Err? && f(res.error).Panicked? ==> r == Panicked(f(res.error).message)
    ensures res.Err? && f(res.error).Returned? ==> r == Returned(Err(f(res.error).value))
  {
    match res
    case Ok(t) => Returned(Ok(t))
    case Err(e) =>
      match f(e)
      case Panicked(m) => Panicked(m)
      case Returned(e2) => Returned(Err(e2))
  }

  // ---------------------------------------------------------------- LockError

  /** `LockError::ignore_poison`: poison becomes `Ok(inner)`; `LockedByCurrentThread` stays an error. */
  function LockErrorIgnorePoison<T>(e: LockError<T>): (r: PoisonlessLockResult<T>)
    ensures r.Ok? <==> e.Poisoned?
    ensures r.Ok? ==> r.value == e.poison.inner
  {
    match e
    case Poisoned(poison) => Ok(poison.inner)
    case LockedByCurrentThread => Err(LockError.LockedByCurrentThread)
  }

  /** `LockError::panic_if_poison`: panics exactly on poison, otherwise the same error. */
  function LockErrorPanicIfPoison<T>(e: LockError<T>): (r: Outcome<PoisonlessLockError>)
    ensures r.Panicked? <==> e.Poisoned?
    ensures r.Panicked? ==> r.message == LOCK_ERROR_PANIC
  {
    match e
    case Poisoned(_) => Panicked(LOCK_ERROR_PANIC)
    case LockedByCurrentThread => Returned(LockError.LockedByCurrentThread)
  }

  /**
   * `LockResult::ignore_poison`: `Ok(t)` is unchanged, poison turns into
   * `Ok(inner)`, and `LockedByCurrentThread` is preserved.
   */
  function LockResultIgnorePoison<T>(res: LockResult<T>): (r: PoisonlessLockResult<T>)
    ensures res.Ok? ==> r == Ok(res.value)
    ensures res.Err? && res.error.Poisoned? ==> r == Ok(res.error.poison.inner)
    ensures res.Err? && res.error.LockedByCurrentThread? ==> r.Err?
  {
    match res.MapErr(LockErrorIgnorePoison)
    case Ok(t) => Ok(t)
    case Err(poisonlessResult) => poisonlessResult
  }

  /** `LockResult::panic_if_poison`: panics exactly on a poison error, otherwise the result is unchanged. */
  function LockResultPanicIfPoison<T>(res: LockResult<T>): (r: Outcome<PoisonlessLockResult<T>>)
    ensures r.Panicked? <==> res.Err? && res.error.Poisoned?
    ensures res.Ok? ==> r == Returned(Ok(res.value))
    ensures res.Err? && res.error.LockedByCurrentThread? ==> r.Returned? && r.value.Err?
  {
    MapErrOrPanic(res, LockErrorPanicIfPoison)
  }

  /** `From<PoisonError<T>> for LockError<T>`. */
  function LockErrorFromPoison<T>(poison: PoisonError<T>): (e: LockError<T>)
    ensures e.Poisoned? && e.poison == poison
  {
    LockError.Poisoned(poison)
  }

  /** `PartialEq for LockError<Infallible>`: it has one inhabited variant, so any two are equal. */
  function PoisonlessLockErrorEq(a: PoisonlessLockError, b: PoisonlessLockError): (r: bool)
    ensures r <==> a == b
  {
    match a
    case LockedByCurrentThread => true
    case Poisoned(_) => assert false; false
  }

  // ------------------------------------------------------------- TryLockError

  /** `TryLockError::ignore_poison`: poison becomes `Ok(inner)`; `WouldBlock` and `LockedByCurrentThread` stay. */
  function TryLockErrorIgnorePoison<T>(e: TryLockError<T>): (r: PoisonlessTryLockResult<T>)
    ensures r.Ok? <==> e.Poisoned?
    ensures r.Ok? ==> r.value == e.poison.inner
    ensures e.WouldBlock? ==> r == Err(TryLockError.WouldBlock)
    ensures e.LockedByCurrentThread? ==> r == Err(TryLockError.LockedByCurrentThread)
  {
    match e
    case Poisoned(poison) => Ok(poison.inner)
    case LockedByCurrentThread => Err(TryLockError.LockedByCurrentThread)
    case WouldBlock => Err(TryLockError.WouldBlock)
  }

  /** `TryLockError::panic_if_poison`: panics exactly on poison; the other two variants are kept. */
  function TryLockErrorPanicIfPoison<T>(e: TryLockError<T>): (r: Outcome<PoisonlessTryLockError>)
    ensures r.Panicked? <==> e.Poisoned?
    ensures r.Panicked? ==> r.message == TRY_LOCK_ERROR_PANIC
    ensures e.WouldBlock? ==> r == Returned(TryLockError.WouldBlock)
    ensures e.LockedByCurrentThread? ==> r == Returned(TryLockError.LockedByCurrentThread)
  {
    match e
    case Poisoned(_) => Panicked(TRY_LOCK_ERROR_PANIC)
    case LockedByCurrentThread => Returned(TryLockError.LockedByCurrentThread)
    case WouldBlock => Returned(TryLockError.WouldBlock)
  }

  /** `TryLockResult::ignore_poison`. */
  function TryLockResultIgnorePoison<T>(res: TryLockResult<T>): (r: PoisonlessTryLockResult<T>)
    ensures res.Ok? ==> r == Ok(res.value)
    ensures res.Err? && res.error.Poisoned? ==> r == Ok(res.error.poison.inner)
    ensures res == Err(TryLockError.WouldBlock) ==> r == Err(TryLockError.WouldBlock)
    ensures res == Err(TryLockError.LockedByCurrentThread) ==> r == Err(TryLockError.LockedByCurrentThread)
  {
    match res.MapErr(TryLockErrorIgnorePoison)
    case Ok(t) => Ok(t)
    case Err(poisonlessResult) => poisonlessResult
  }

  /** `TryLockResult::panic_if_poison`. */
  function TryLockResultPanicIfPoison<T>(res: TryLockResult<T>): (r: Outcome<PoisonlessTryLockResult<T>>)
    ensures r.Panicked? <==> res.Err? && res.error.Poisoned?
    ensures res.Ok? ==> r == Returned(Ok(res.value))
    ensures res == Err(TryLockError.WouldBlock) ==> r == Returned(Err(TryLockError.WouldBlock))
    ensures res == Err(TryLockError.LockedByCurrentThread) ==>
              r == Returned(Err(TryLockError.LockedByCurrentThread))
  {
    MapErrOrPanic(res, TryLockErrorPanicIfPoison)
  }

  /** `From<PoisonError<T>> for TryLockError<T>`. */
  function TryLockErrorFromPoison<T>(poison: PoisonError<T>): (e: TryLockError<T>)
    ensures e.Poisoned? && e.poison == poison
  {
    TryLockError.Poisoned(poison)
  }

  /** `PartialEq for TryLockError<Infallible>`: equal iff the variants match. */
  function PoisonlessTryLockErrorEq(a: PoisonlessTryLockError, b: PoisonlessTryLockError): (r: bool)
    ensures r <==> a == b
  {
    match a
    case LockedByCurrentThread => b.LockedByCurrentThread?
    case WouldBlock => b.WouldBlock?
    case Poisoned(_) => assert false; false
  }

  // -------------------------------------------------------------- AccessError

  /** `AccessError::ignore_poison`: every access error is poison, so this is always `Ok`. */
  function AccessErrorIgnorePoison<T>(e: AccessError<T>): (r: Result<T, AccessError<()>>)
    ensures r.Ok?
    ensures r.value == e.poison.inner
  {
    Ok(e.poison.inner)
  }

  /** `AccessError::panic_if_poison`, which returns `!`: it always panics. */
  function AccessErrorPanicIfPoison<T>(e: AccessError<T>): (r: Outcome<AccessError<()>>)
    ensures r.Panicked?
    ensures r.message == ACCESS_ERROR_PANIC
  {
    Panicked(ACCESS_ERROR_PANIC)
  }

  /** `AccessResult::ignore_poison`: always `Ok`, holding the value whether or not it was poisoned. */
  function AccessResultIgnorePoison<T>(res: AccessResult<T>): (r: Result<T, AccessError<()>>)
    ensures r.Ok?
    ensures r.value == if res.Ok? then res.value else res.error.poison.inner
  {
    match res.MapErr(AccessErrorIgnorePoison)
    case Ok(t) => Ok(t)
    case Err(poisonlessResult) => poisonlessResult
  }

  /** `AccessResult::panic_if_poison`: panics iff the result is an error, otherwise it is unchanged. */
  function AccessResultPanicIfPoison<T>(res: AccessResult<T>): (r: Outcome<Result<T, AccessError<()>>>)
    ensures r.Panicked? <==> res.Err?
    ensures res.Ok? ==> r == Returned(Ok(res.value))
  {
    MapErrOrPanic(res, AccessErrorPanicIfPoison)
  }

  /** `From<PoisonError<T>> for AccessError<T>`. */
  function AccessErrorFromPoison<T>(poison: PoisonError<T>): (e: AccessError<T>)
    ensures e.poison == poison
  {
    AccessError(poison)
  }

  // ------------------------------------------------------------------ lemmas

  /** Whenever `panic_if_poison` returns, it returns what `ignore_poison` would: the two helpers agree off poison. */
  lemma LockResultHelpersAgree<T>(res: LockResult<T>)
    ensures LockResultPanicIfPoison(res).Returned? ==>
              LockResultPanicIfPoison(res).value == LockResultIgnorePoison(res)
  {
  }

  lemma TryLockResultHelpersAgree<T>(res: TryLockResult<T>)
    ensures TryLockResultPanicIfPoison(res).Returned? ==>
              TryLockResultPanicIfPoison(res).value == TryLockResultIgnorePoison(res)
  {
  }

  lemma AccessResultHelpersAgree<T>(res: AccessResult<T>)
    ensures AccessResultPanicIfPoison(res).Returned? ==>
              AccessResultPanicIfPoison(res).value == AccessResultIgnorePoison(res)
  {
  }

  /**
   * A poison error converted with `From` is recovered by `ignore_poison` as its
   * inner value and makes `panic_if_poison` panic, for all three error types.
   */
  lemma FromPoisonRoundTrip<T>(poison: PoisonError<T>)
    ensures LockResultIgnorePoison<T>(Err(LockErrorFromPoison(poison))) == Ok(poison.inner)
    ensures TryLockResultIgnorePoison<T>(Err(TryLockErrorFromPoison(poison))) == Ok(poison.inner)
    ensures AccessResultIgnorePoison<T>(Err(AccessErrorFromPoison(poison))) == Ok(poison.inner)
    ensures LockResultPanicIfPoison<T>(Err(LockErrorFromPoison(poison))) == Panicked(LOCK_ERROR_PANIC)
    ensures TryLockResultPanicIfPoison<T>(Err(TryLockErrorFromPoison(poison))) == Panicked(TRY_LOCK_ERROR_PANIC)
    ensures AccessResultPanicIfPoison<T>(Err(AccessErrorFromPoison(poison))) == Panicked(ACCESS_ERROR_PANIC)
  {
  }

  /**
   * On an `AccessError` itself, `ignore_poison` recovers exactly the value the
   * poison was made from, and `panic_if_poison` panics with the same message
   * as `panic_if_poison` on the erroneous result.
   */
  lemma AccessErrorHelpers<T>(poison: PoisonError<T>, res: AccessResult<T>)
    ensures AccessErrorIgnorePoison(AccessErrorFromPoison(poison)) == Ok(poison.inner)
    ensures res.Err? ==> AccessResultPanicIfPoison(res) == Panicked(AccessErrorPanicIfPoison(res.error).message)
  {
  }

  /** `ignore_poison` never yields a poison error, so applying it to its own output changes nothing. */
  lemma LockResultIgnorePoisonIdempotent<T>(res: LockResult<T>)
    ensures var once := LockResultIgnorePoison(res);
            LockResultIgnorePoison<T>(if once.Ok? then Ok(once.value) else Err(LockError.LockedByCurrentThread))
              == once
  {
  }
}
