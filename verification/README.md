# Thread-checked mutex and the `check` tool, in Dafny

This project models the core of the `generic-container` workspace.

The main part is the **thread-checked mutex** of the `thread-checked-lock`
crate. It is a mutex that refuses to be locked twice by the same thread, so
a self-deadlock becomes the error `LockedByCurrentThread`. The model covers:

- **The per-thread registry** `LockedMutexesInner` (`locked_mutexes_inner.dfy`).
  It is a fixed array of `Option<MutexID>` slots backed by an overflow set. It
  is a Dafny class with an `array`, a `set` field and a ghost `held` set that
  the two tiers together must equal, with no identity stored twice.
- **The ID allocator** (`mutex_id.dfy`). It is a `u64` counter that wraps at
  2^64. Each identity is the counter plus one, and a counter of 2^63 or more
  panics. Identities are proved strictly increasing while the counter has not
  wrapped.
- **The mutex state machine** `ThreadCheckedMutex` (`checked_mutex.dfy`), seen
  from one thread. The standard mutex underneath is an abstract state (`Free`,
  `HeldByOther`, `HeldByMe`) plus a `poisoned` flag. The registry is an object
  the thread owns, and the mutex's own state agrees with it (`CoherentWith`).
- **The error taxonomy** (`lock_errors.dfy`): `LockError`, `TryLockError` and
  `AccessError`, with `ignore_poison`/`panic_if_poison` on each error and on
  each result alias, `From<PoisonError>`, and equality on the poisonless
  forms. The older `thread-checked-mutex` crate has the same semantics, and
  the same members are cited against both copies. A panic is an explicit
  `Panicked(message)` outcome.
- **The generic-container adapters** (`container_impls.dfy`): `ErasedLockError`
  and the `Arc<ThreadCheckedMutex<T>>` container operations, plus the
  `HandlePoisonedResult` helpers on `std`'s poison results.

The workspace's `check` tool is modelled as pure string logic:

- `check_data.dfy`: channels, targets and packages, their parsers and lists.
- `check_commands.dfy`: cargo subcommands, `RUSTFLAGS` and the `cargo hack`
  argument prefix.
- `check_parsing.dfy`: the command-line token loop and the
  "all / default / filter" selection rule. The tool's module documentation
  (`check/src/main.rs:13-18`) lists `native` and full target triples as
  possible targets, but the filter keeps only members of `all_targets`, so
  `--target native` or `--target <triple>` is accepted and then selects
  nothing (`NativeAndCustomNeverSelected`). The model follows the code.
- `check_package_cache.dfy`: cache paths, which packages to check or replay,
  and the loop that writes a run's output to the cache and the console. In
  JSON mode that loop writes each compiler message only once.

## Model

| member | source | states |
|---|---|---|
| LockedMutexes.FirstFreeSlot | crates/thread-checked-lock/src/locked_mutexes_inner.rs:37-48 | `None` exactly when every slot is taken; otherwise the index of a free slot with every earlier slot taken |
| LockedMutexes.LockedMutexesInner.constructor | crates/thread-checked-lock/src/locked_mutexes_inner.rs:20-25 | a fresh registry: `inline` slots all `None`, empty overflow set, nothing held, invariant established |
| LockedMutexes.LockedMutexesInner.RegisterLocked | crates/thread-checked-lock/src/locked_mutexes_inner.rs:31-54 | returns true iff the ID was not held; afterwards it is held; an already-held ID leaves both tiers unchanged; a new ID goes into the first free slot, or into the overflow set when every slot is taken; the no-duplicates invariant is kept |
| LockedMutexes.LockedMutexesInner.RegisterUnlocked | crates/thread-checked-lock/src/locked_mutexes_inner.rs:60-69 | returns true iff the ID was held; afterwards it is not held and no other ID changes; an ID found inline leaves the overflow set alone |
| LockedMutexes.LockedMutexesInner.LockedByCurrentThread | crates/thread-checked-lock/src/locked_mutexes_inner.rs:73-76 | true exactly when the ID is held, that is, in some inline slot or in the overflow set |
| LockedMutexes.OverflowScenario | crates/thread-checked-lock/src/locked_mutexes_inner.rs:31-69 | with one inline slot, registering three IDs succeeds for each, the first takes the slot and the other two go to the overflow set; unregistering them all, in another order, succeeds for each and leaves none held |
| MutexIds.IdFromCounter | crates/thread-checked-lock/src/mutex_id.rs:24-37 | returns `counter + 1` (non-zero, at most 2^63) exactly when `counter < 2^63`, and panics with the exhaustion message otherwise |
| MutexIds.IdFromCounterMonotonic | crates/thread-checked-mutex/src/mutex_id.rs:19-36 | larger counters give larger identities |
| MutexIds.StrictlyIncreasingIsDistinct | crates/thread-checked-lock/src/mutex_id.rs:100-105 | strictly increasing identities are pairwise distinct |
| MutexIds.IdCounter.constructor | crates/thread-checked-lock/src/mutex_id.rs:47-51 | the counter starts at 0 with nothing issued |
| MutexIds.IdCounter.NextCounter | crates/thread-checked-lock/src/mutex_id.rs:56-70 | returns the previous counter and increments it, wrapping from `u64::MAX` to 0 |
| MutexIds.IdCounter.NextId | crates/thread-checked-mutex/src/mutex_id.rs:19-36 | returns the old counter plus one exactly when the old counter is below 2^63 and panics otherwise; the counter advances either way; until the counter wraps, each identity is larger than all those issued before |
| MutexIds.FirstIdsScenario | crates/thread-checked-lock/src/mutex_id.rs:82-98 | the first identity is 1, and the second is different |
| CheckedMutex.ThreadCheckedMutex.constructor | crates/thread-checked-lock/src/mutex.rs:33-38 | a mutex with the given ID and value, unlocked and unpoisoned |
| CheckedMutex.New | crates/thread-checked-lock/src/mutex.rs:33-38 | panics iff the ID counter is exhausted; otherwise a fresh unlocked, unpoisoned mutex whose ID is recorded as issued, and which the current thread does not hold when every held ID was issued earlier |
| CheckedMutex.ThreadCheckedMutex.AcquiredResult | crates/thread-checked-lock/src/mutex.rs:83-90 | after acquiring: `Ok(guard)` when unpoisoned, otherwise the same guard wrapped in `Poisoned` |
| CheckedMutex.ThreadCheckedMutex.Lock | crates/thread-checked-lock/src/mutex.rs:82-94 | returns `LockedByCurrentThread` iff this thread holds the lock, and then changes nothing; otherwise registers the ID and returns the guard, poisoned if the lock was poisoned or another holder panicked |
| CheckedMutex.ThreadCheckedMutex.TryLock | crates/thread-checked-lock/src/mutex.rs:116-145 | `LockedByCurrentThread` iff this thread holds the lock; `WouldBlock` iff another thread does, with no registry change; otherwise the registration succeeds and the result is `Ok` or the poisoned guard |
| CheckedMutex.TryLockErrorFromLockPoison | crates/thread-checked-lock/src/mutex.rs:121-142 | a poisoned acquisition in `try_lock` becomes `TryLockError::Poisoned` of the same poison |
| CheckedMutex.ThreadCheckedMutex.DropGuard | crates/thread-checked-lock/src/mutex.rs:231-241 | unregisters the ID, and the removal reports that it was held; the lock is released and poisoned if the thread is panicking |
| CheckedMutex.ThreadCheckedMutex.LockedByCurrentThread | crates/thread-checked-lock/src/mutex.rs:150-152 | true iff this thread holds the underlying lock, iff the ID is registered |
| CheckedMutex.ThreadCheckedMutex.IsPoisoned | crates/thread-checked-lock/src/mutex.rs:163-165 | true iff acquiring now would report poison |
| CheckedMutex.ThreadCheckedMutex.ClearPoison | crates/thread-checked-lock/src/mutex.rs:174-176 | clears the poison flag and nothing else |
| CheckedMutex.ThreadCheckedMutex.GuardRead | crates/thread-checked-lock/src/mutex.rs:244-251 | dereferencing a live guard gives the protected value, the same value `into_inner` would hand out with the poison ignored |
| CheckedMutex.ThreadCheckedMutex.GuardWrite | crates/thread-checked-lock/src/mutex.rs:253-258 | writing through a live guard replaces the value, leaving lock and poison state alone; reading through the guard then gives the written value |
| CheckedMutex.GuardWriteReadScenario | crates/thread-checked-lock/src/mutex.rs:244-258 | a value written through a guard is read back through it, and `into_inner` returns it after the guard is dropped |
| CheckedMutex.ThreadCheckedMutex.IntoInner | crates/thread-checked-lock/src/mutex.rs:186-191 | `Ok` iff unpoisoned, otherwise `AccessError` around the value; with poison ignored it is always the value; the registry is not consulted |
| CheckedMutex.ThreadCheckedMutex.GetMut | crates/thread-checked-lock/src/mutex.rs:201-203 | `Ok` iff unpoisoned, otherwise `AccessError` around the value; with poison ignored it is always the value; the registry is not consulted |
| CheckedMutex.ThreadCheckedMutex.OtherThreadAcquires | crates/thread-checked-lock/src/mutex.rs:382-385 | another thread takes the free lock; this thread's registry is unaffected |
| CheckedMutex.ThreadCheckedMutex.OtherThreadReleases | crates/thread-checked-lock/src/mutex.rs:390-393 | another thread releases the lock, poisoning it if it panicked |
| CheckedMutex.LockLockUnlockLockScenario | crates/thread-checked-lock/src/mutex.rs:325-342 | lock succeeds; a second lock fails with `LockedByCurrentThread`; after the drop the lock is not held and locking succeeds again; `locked_by_current_thread` is true exactly while a guard lives |
| CheckedMutex.WouldBlockScenario | crates/thread-checked-lock/src/mutex.rs:373-411 | while another thread holds the lock, `try_lock` gives `WouldBlock` without registering; after release it succeeds, and a second `try_lock` gives `LockedByCurrentThread` |
| CheckedMutex.PoisonScenario | crates/thread-checked-lock/src/mutex.rs:163-191 | a panic while holding the lock poisons it; the next lock reports poison, and ignoring it gives the same guard; `clear_poison` makes the next lock clean; `into_inner` gives the value |
| Wrappers.Result.MapErr | crates/thread-checked-lock/src/error.rs:70-75 | keeps `Ok` values and applies the function to the error |
| LockErrors.MapErrOrPanic | crates/thread-checked-lock/src/error.rs:84-86 | `Ok` passes through; an error is mapped, and the result panics exactly when the mapping panics |
| LockErrors.LockErrorIgnorePoison | crates/thread-checked-lock/src/error.rs:108-113 | `Ok(inner)` exactly for `Poisoned`, `LockedByCurrentThread` stays an error |
| LockErrors.LockErrorPanicIfPoison | crates/thread-checked-lock/src/error.rs:123-132 | panics exactly on `Poisoned`; otherwise returns `LockedByCurrentThread` |
| LockErrors.LockResultIgnorePoison | crates/thread-checked-lock/src/error.rs:70-75 | `Ok(t)` unchanged, poison becomes `Ok(inner)`, `LockedByCurrentThread` stays an error |
| LockErrors.LockResultPanicIfPoison | crates/thread-checked-lock/src/error.rs:84-86 | panics exactly on a poison error; `Ok` and `LockedByCurrentThread` are returned unchanged |
| LockErrors.LockErrorFromPoison | crates/thread-checked-lock/src/error.rs:135-140 | always the `Poisoned` variant, carrying the given poison |
| LockErrors.PoisonlessLockErrorEq | crates/thread-checked-lock/src/error.rs:168-177 | equality of poisonless lock errors holds iff the variants match, so it always holds |
| LockErrors.TryLockErrorIgnorePoison | crates/thread-checked-lock/src/error.rs:238-244 | `Ok(inner)` exactly for `Poisoned`; `WouldBlock` and `LockedByCurrentThread` are kept |
| LockErrors.TryLockErrorPanicIfPoison | crates/thread-checked-lock/src/error.rs:254-264 | panics exactly on `Poisoned`; `WouldBlock` and `LockedByCurrentThread` are kept |
| LockErrors.TryLockResultIgnorePoison | crates/thread-checked-lock/src/error.rs:197-202 | `Ok` unchanged, poison becomes `Ok(inner)`, both other errors kept |
| LockErrors.TryLockResultPanicIfPoison | crates/thread-checked-lock/src/error.rs:211-213 | panics exactly on poison; `Ok`, `WouldBlock` and `LockedByCurrentThread` returned unchanged |
| LockErrors.TryLockErrorFromPoison | crates/thread-checked-lock/src/error.rs:267-272 | always the `Poisoned` variant, carrying the given poison |
| LockErrors.PoisonlessTryLockErrorEq | crates/thread-checked-lock/src/error.rs:305-314 | equality of poisonless try-lock errors holds iff the variants match |
| LockErrors.AccessErrorIgnorePoison | crates/thread-checked-lock/src/error.rs:384-386 | every access error is poison, so the result is always `Ok`, and it carries the value inside the poison |
| LockErrors.AccessErrorPanicIfPoison | crates/thread-checked-lock/src/error.rs:396-402 | returns `!`: it always panics, with the access-error message |
| LockErrors.AccessResultIgnorePoison | crates/thread-checked-lock/src/error.rs:340-345 | always `Ok`: the value, or the value inside the poison |
| LockErrors.AccessResultPanicIfPoison | crates/thread-checked-lock/src/error.rs:357-359 | panics iff the result is an error; `Ok` is returned unchanged |
| LockErrors.AccessErrorFromPoison | crates/thread-checked-lock/src/error.rs:405-410 | `AccessError { poison }` of the given poison |
| LockErrors.LockResultHelpersAgree | crates/thread-checked-lock/src/error.rs:443-479 | whenever `panic_if_poison` returns, `ignore_poison` gives the same result |
| LockErrors.TryLockResultHelpersAgree | crates/thread-checked-mutex/src/error.rs:104-154 | whenever `panic_if_poison` returns, `ignore_poison` gives the same result |
| LockErrors.AccessResultHelpersAgree | crates/thread-checked-lock/src/error.rs:520-531 | whenever `panic_if_poison` returns, `ignore_poison` gives the same result |
| LockErrors.FromPoisonRoundTrip | crates/thread-checked-mutex/src/error.rs:64-69 | an error made from a poison is recovered as `Ok(inner)` by `ignore_poison` and panics under `panic_if_poison`, for all three error kinds |
| LockErrors.AccessErrorHelpers | crates/thread-checked-lock/src/error.rs:357-410 | `ignore_poison` on an `AccessError` made from a poison recovers its value; `panic_if_poison` on an erroneous access result panics with the message of `panic_if_poison` on its error |
| LockErrors.LockResultIgnorePoisonIdempotent | crates/thread-checked-mutex/src/error.rs:14-31 | ignoring poison twice is the same as ignoring it once |
| ContainerImpls.Erase | crates/generic-container/src/impls/arc_checked_mutex.rs:43-51 | keeps the variant and drops the poison payload |
| ContainerImpls.ErasedPanicIfPoison | crates/generic-container/src/impls/arc_checked_mutex.rs:31-40 | panics on `Poisoned`, the identity otherwise |
| ContainerImpls.EraseCommutesWithPanicIfPoison | crates/generic-container/src/impls/arc_checked_mutex.rs:31-51 | erasing then panicking on poison panics exactly when `LockError::panic_if_poison` does, and otherwise gives the erasure of its result |
| ContainerImpls.TryGetRef | crates/generic-container/src/impls/arc_checked_mutex.rs:84-90 | fails with the erased `LockedByCurrentThread` iff this thread already holds the mutex, and then neither the mutex nor either registry tier changes; otherwise the mutex is acquired and registered, becomes poisoned if it was already or if the other holder panicked, and the result is the guard iff it is not poisoned (a poison error is reported, not ignored); the value is never changed |
| ContainerImpls.ArcIntoInner | crates/generic-container/src/impls/arc_checked_mutex.rs:67-78 | `None` iff this `Arc` is not the unique owner; otherwise the value, even when poisoned |
| ContainerImpls.PanicIfPoisoned | crates/generic-container/src/impls/mod.rs:55-61 | the value on `Ok`, a panic on a poison error |
| ContainerImpls.IgnorePoisoned | crates/generic-container/src/impls/mod.rs:64-69 | the value on `Ok`, and the value carried in the poison on an error |
| ContainerImpls.PoisonedHelpersAgree | crates/generic-container/src/impls/mod.rs:55-69 | whenever `panic_if_poisoned` returns, it agrees with `ignore_poisoned` |
| CheckData.AllChannels | check/src/data.rs:13-15 | two distinct channels |
| CheckData.AllChannelsComplete | check/src/data.rs:13-15 | every channel is listed |
| CheckData.DefaultChannels | check/src/data.rs:17-19 | the default channels are all channels, so every channel is checked by default |
| CheckData.ParseChannel | check/src/data.rs:21-27 | accepts exactly "stable" and "nightly"; any other string is an error naming it |
| CheckData.AllTargets | check/src/data.rs:41-48 | exactly the four named targets, neither `Native` nor any `Custom` |
| CheckData.DefaultTargets | check/src/data.rs:50-52 | Apple silicon and Wasm, both in `all_targets` |
| CheckData.ParseTarget | check/src/data.rs:54-63 | never fails: `Custom` of the same string exactly for a string that is not a listed alias; `Native` only for "native"; the string is always in its target's alias table |
| CheckData.TargetAliases | check/src/data.rs:54-63 | the alias table of each named target lies within the listed aliases; a custom target's table shares nothing with them |
| CheckData.ParseTargetAliases | check/src/data.rs:54-63 | a string parses to a target iff it is in that target's alias table, e.g. exactly "apple", "apple-silicon" and "aarch64-apple-darwin" give Apple silicon |
| CheckData.TargetTriple | check/src/data.rs:65-74 | `None` only for `Native`; a custom target is its own triple |
| CheckData.NamedTargetTripleRoundTrip | check/src/data.rs:57-71 | parsing the triple of a named target gives that target back |
| CheckData.ParsedTargetTripleRoundTrip | check/src/data.rs:54-74 | every parsed target other than `Native` is recovered by parsing its triple |
| CheckData.AllPackages | check/src/data.rs:85-89 | two distinct packages |
| CheckData.AllPackagesComplete | check/src/data.rs:85-89 | every package is listed |
| CheckData.DefaultPackages | check/src/data.rs:91-93 | the default packages are all packages, so every package is checked by default |
| CheckData.PackageName | check/src/data.rs:103-108 | a non-empty crate name |
| CheckData.PackageNameInjective | check/src/data.rs:103-108 | distinct packages have distinct names |
| CheckData.ShortAlias | check/src/data.rs:95-101 | the short alias differs from the crate name |
| CheckData.ParsePackage | check/src/data.rs:95-101 | a parsed package came from its name or its short alias; any other string is an error naming it |
| CheckData.ParsePackageExactly | check/src/data.rs:95-101 | a string parses to a package iff it is that package's name or its short alias |
| CheckData.PackageNameRoundTrip | check/src/data.rs:95-108 | parsing a package's name gives the package back |
| CheckData.PackageDir | check/src/data.rs:110-112 | "crates/" followed by the package name |
| CheckData.Dependencies | check/src/data.rs:114-121 | five paths: the four workspace-wide ones, then the package directory |
| CheckData.Flags | check/src/data.rs:123-125 | `--package` followed by the package's crate name, which parses back to the package |
| CheckCommands.AllCommands | check/src/commands.rs:18-20 | three distinct subcommands |
| CheckCommands.AllCommandsComplete | check/src/commands.rs:18-20 | every subcommand is listed |
| CheckCommands.DefaultCommands | check/src/commands.rs:22-24 | only clippy, which is in `all_commands` |
| CheckCommands.CommandName | check/src/commands.rs:120-134 | a non-empty subcommand name |
| CheckCommands.ParseCommand | check/src/commands.rs:26-33 | accepts exactly "check", "clippy" and "test"; any other string is an error naming it |
| CheckCommands.CommandNameRoundTrip | check/src/commands.rs:26-33 | parsing a subcommand's name gives the subcommand back |
| CheckCommands.RustFlags | check/src/commands.rs:136-159 | empty on stable; "-Zpolonius" for check and test on nightly; the lint flags for clippy on nightly |
| CheckCommands.NightlyFlagsStartWithPolonius | check/src/commands.rs:136-159 | flags are set iff the channel is nightly, and then they start with "-Zpolonius" |
| CheckCommands.ToolchainArgs | check/src/commands.rs:124-126 | one toolchain argument on nightly, none on stable |
| CheckCommands.BaseCommand | check/src/commands.rs:120-134 | runs cargo with `RUSTFLAGS` set; the arguments are "+nightly" on nightly only, then "hack", the subcommand, "--feature-powerset", "--color", "always" |
| CheckParsing.DefaultRawArgs | check/src/parsing.rs:52-65 | nothing selected, no flag set, no trailing arguments |
| CheckParsing.MissingArgument | check/src/parsing.rs:78-104 | the error message quotes the option between backticks at its end |
| CheckParsing.UnknownArgument | check/src/parsing.rs:118-122 | the error message names the argument right after "Unknown argument: " |
| CheckParsing.ClassifyKnown | check/src/parsing.rs:72-122 | the loop recognises exactly the known options; `--` is the only end of the options; the value options are the four that take a value |
| CheckParsing.ValueStep | check/src/parsing.rs:78-104 | a value option with its value consumes two arguments and only adds to the selections, or fails with the parser's error; each option takes its own step below |
| CheckParsing.AddCommand | check/src/parsing.rs:78-84 | goes on iff the value parses as a command; then that command joins the command selection and nothing else changes; otherwise the loop stops with the parser's error |
| CheckParsing.AddChannel | check/src/parsing.rs:85-91 | goes on iff the value parses as a channel; then that channel joins the channel selection and nothing else changes; otherwise the loop stops with the parser's error |
| CheckParsing.AddTarget | check/src/parsing.rs:92-98 | always goes on: the parsed target joins the target selection and nothing else changes |
| CheckParsing.AddPackage | check/src/parsing.rs:99-105 | goes on iff the value parses as a package; then that package joins the package selection and nothing else changes; otherwise the loop stops with the parser's error |
| CheckParsing.FlagStep | check/src/parsing.rs:106-117 | each flag option sets exactly its own flag (`--all` the four `all` flags) and changes no selection, other flag or trailing argument |
| CheckParsing.TokenStep | check/src/parsing.rs:72-122 | one loop iteration consumes at least one argument and only adds to what was collected, or stops; it stops successfully only at `--`, keeping the rest |
| CheckParsing.TryParseRawArgs | check/src/parsing.rs:68-127 | the `while let` loop computes exactly the token-loop reference function from the default arguments |
| CheckParsing.ExtendsTransitive | check/src/parsing.rs:68-127 | adding to what was collected is transitive |
| CheckParsing.ParseTokensExtends | check/src/parsing.rs:68-127 | whatever was collected before is still there when parsing succeeds |
| CheckParsing.AllSetsEveryAllFlag | check/src/parsing.rs:106-111 | `--all` sets all four `all` flags, whatever follows |
| CheckParsing.ParseTokensContinues | check/src/parsing.rs:70-124 | after an iteration that goes on, parsing continues from the consumed position |
| CheckParsing.AllOneSetsOnlyItsFlag | check/src/parsing.rs:112-115 | a leading `--all-X` makes the parse that of the rest with its own `all` flag set and every other field unchanged |
| CheckParsing.DashDashKeepsTheRest | check/src/parsing.rs:74-77 | `--` stops parsing and appends every later argument, in order, to the trailing arguments |
| CheckParsing.SuffixOfDrop | check/src/parsing.rs:74-77 | a suffix of the remaining arguments is a suffix of all of them |
| CheckParsing.TrailingArgsAreSuffix | check/src/parsing.rs:74-77 | the trailing arguments parsed are a suffix of the input |
| CheckParsing.MissingValueIsError | check/src/parsing.rs:78-104 | a value option as the last argument is the missing-argument error for that option |
| CheckParsing.UnknownArgumentIsError | check/src/parsing.rs:118-122 | an unrecognised argument where an option is expected is the unknown-argument error |
| CheckParsing.ValueStepIgnoresRest | check/src/parsing.rs:78-104 | a value option's step depends only on the option and its value |
| CheckParsing.ValueStepIdempotent | check/src/parsing.rs:78-104 | applying the same value option twice changes nothing more |
| CheckParsing.RepeatedValueCollapses | check/src/parsing.rs:31-35 | giving the same option and value twice is the same as giving them once |
| CheckParsing.KeepMembers | check/src/parsing.rs:31-35 | the full list filtered by membership: exactly its chosen elements, in its order |
| CheckParsing.Select | check/src/parsing.rs:24-38 | the all-flag gives the full list; nothing chosen gives the default list; otherwise the full list filtered by membership, in order |
| CheckParsing.FromRaw | check/src/parsing.rs:24-48 | each of the four selections follows the `args_field_vec!` rule (`Select`) with its own all-flag, chosen set, full list and default list; the flags and trailing arguments are copied; every selected value is in its full list |
| CheckParsing.NativeAndCustomNeverSelected | check/src/data.rs:41-48 | `Native` and `Custom` targets are never selected |
| CheckParsing.TryParseArgs | check/src/parsing.rs:21-49 | errors of the token loop are returned unchanged; on success, the selections of the parsed arguments, with trailing arguments a suffix of the input and no `Native` or `Custom` target |
| CheckPackageCache.PackageCachePath | check/src/package_cache.rs:195-205 | ".check-cache/", the package name, then ".msg-fmt-json" in JSON mode or ".ansi" otherwise |
| CheckPackageCache.PackageCachePathInjective | check/src/package_cache.rs:195-205 | distinct packages or modes get distinct cache paths |
| CheckPackageCache.PackagesToCheckSpec | check/src/package_cache.rs:108-133 | with `no_cache`, the argument packages unchanged; otherwise, in `all_packages` order, the argument packages whose cache is invalid |
| CheckPackageCache.PackagesToCheck | check/src/package_cache.rs:108-133 | the loop computes exactly that selection |
| CheckPackageCache.PackagesToPrint | check/src/package_cache.rs:161-168 | nothing under `no_cache`; otherwise the argument packages that were not checked, in order |
| CheckPackageCache.CheckedOrReplayed | check/src/package_cache.rs:108-168 | without `no_cache`, every argument package is either checked or replayed from its cache, never both |
| CheckPackageCache.JsonPassKeepsOtherLines | check/src/package_cache.rs:49-64 | every line that is not a compiler message is written, in order |
| CheckPackageCache.OtherLinesOfCons | check/src/package_cache.rs:59-63 | a line that is not a compiler message is kept in front of the rest |
| CheckPackageCache.JsonPassMessagesFresh | check/src/package_cache.rs:52-58 | each compiler message written was in the input and not seen before, and none is written twice |
| CheckPackageCache.JsonPassComplete | check/src/package_cache.rs:52-58 | every unseen compiler message of the input is written, and the seen set grows by exactly the input's compiler messages |
| CheckPackageCache.AppendJsonPass | check/src/package_cache.rs:49-64 | appending a JSON-mode run to the cache keeps its compiler messages unique, and they are exactly the new seen set |
| CheckPackageCache.PackageCacheWriter.constructor | check/src/package_cache.rs:24-37 | an empty cache file at the package's cache path, nothing seen |
| CheckPackageCache.PackageCacheWriter.CacheAndPrint | check/src/package_cache.rs:40-80 | in JSON mode it writes each unseen compiler message and every other line to the file and the console; otherwise it writes every line; the messages in the file stay unique |
| CheckPackageCache.PackageCacheWriter.CacheAndPrintJson | check/src/package_cache.rs:49-64 | the JSON-mode loop writes exactly the lines kept by the de-duplicating pass |
| CheckPackageCache.PackageCacheWriter.CacheAndPrintPlain | check/src/package_cache.rs:73-79 | the plain-mode loop writes every line, in order |
| CheckPackageCache.DuplicateMessageScenario | check/src/package_cache.rs:49-64 | the same compiler message from two runs on one writer is written once; an ordinary line is written both times |

## Left out

- Real concurrency and blocking. The standard mutex is an abstract state. Whether another thread holds it, and whether that thread panicked, are inputs (`OtherThreadAcquires`, `OtherThreadReleases`, `otherPanics`).
- Lock: a blocking `lock` on a mutex held elsewhere is modelled as that holder releasing it, then this thread acquiring it.
- Memory ordering. The two `next_counter` variants (atomic `fetch_add` and `Mutex<u64>`) are one sequential counter field.
- MutexIds.IdCounter.NextId: identities are proved distinct only until the counter wraps at 2^64. The source itself accepts that a wrapped counter could repeat an identity.
- The `thread_local!` accessor in `crates/thread-checked-mutex/src/locked_mutexes.rs` is not modelled. The registry is an object the thread owns, and the inline capacity is a constructor parameter.
- `Debug` and `Display` implementations: fixed message strings with no logic.
- The trait and GAT scaffolding of generic-container, and the thin wrappers over `Box`, `Rc`, `Arc`, `RefCell`, `Mutex` and `RwLock`.
- `Default` for the mutex and the registry: the same as `new` with a default value.
- ContainerImpls.TryGetRef also stands for `try_get_mut`, whose body is the same.
- CheckedMutex.ThreadCheckedMutex.GetMut returns the value, not a `&mut`. Writes through that reference are not modelled.
- `CargoCommand::run`: spawning cargo and waiting for it.
- `is_package_cache_invalid` walks file modification times. It is an input predicate of `PackagesToCheck`.
- `read_cache_for_package` and the replay in `print_cached_checks`: the file existence check and the copy to the console are I/O.
- `PackageCacheWriter::new` creates the directory and file. The model starts from an empty file.
- The child's exit status check, and the panic when the child failed.
- I/O errors on reading or writing a line.
- `main.rs` and `env::args()`. The arguments are a `seq<string>` without the program name.
- stdout and stderr are one console line sequence.
- serde derives.
