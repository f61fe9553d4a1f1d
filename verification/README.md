# Slint Swift bindings: one-shot primitives, timer handles and the shared vector, in Dafny

This project models the small state machines of the Swift bindings for the
Slint GUI toolkit and proves what their code promises:

- `AsyncChannel.Buffer` (Sources/AsyncChannel.swift): a one-shot channel in
  state `pending`, `fulfilled(value)` or `cancelled`, with a dictionary from a
  waiter's UUID to its suspended continuation. Continuations are ids. Every
  `resume` is recorded in a log, and the object invariant proves four things:
  no continuation is resumed twice, no continuation handed over is lost (each
  is either stored or resumed), every delivered value is the one value `send`
  accepted, and no waiter stays stored once the channel leaves `pending`.
- `Promise` (Sources/Promise.swift): `pending`/`finished(Result)` plus an
  append-only waiting room. `fulfill` assigns the status, and its `didSet`
  observer runs `resolve`.
- `SlintTimer`, in both revisions (Sources/Core/Timer.swift with `drop`,
  Sources/Timer.swift without). The handle holds an optional foreign id. The
  foreign timer service is a table from id to (mode, duration, running).
  Starting with id 0 allocates a fresh non-zero id.
- The unfinished copy-on-write `SharedVector` (Sources/INCOMPLETE/SharedVector.swift).
  A header `(refCount, size, capacity)` with its element storage, a shared
  empty header with count -1, the allocator's frees, bounds-checked
  subscripts, `append`, the `header` setter, `copyFromCollection`,
  `aboutToWrite`, `freeVector`, `deinit`, `newVector`, `calculateSizeAlignment`
  and `areEqual`.

Files: `optional.dfy` (Swift's `Optional`), `async_channel.dfy`,
`promise.dfy`, `timer_runtime.dfy` (the foreign timer service),
`timer_core.dfy`, `timer_legacy.dfy`, `shared_vector.dfy`.

Modelling choices:

- The model follows a debug build. There a failed `assert` traps, as a
  failed `precondition` does in every checked build, so both become
  `requires` clauses:
  - registering on a cancelled channel;
  - a second `send`;
  - the subscript bounds;
  - `copyFromCollection`'s end bound;
  - `freeVector`'s zero count.
- Each operation runs on its actor, one at a time, so the model is sequential.
- Promise: a `CheckedContinuation` traps when it is resumed twice, and
  `resolve` never empties the room. So `Fulfill` requires that the promise is
  still pending or that nobody is waiting. `ResolvingTwiceWakesAgain` shows
  why this is needed.
- SharedVector is modelled as written, and so are its consequences:
  - `endIndex` starts at 1, so `init(_ initialValues:)` accepts only an
    empty list. It also means `aboutToWrite` copies only a vector with
    `endIndex` 0.
  - The guard `refCount > 1 && (newCapacity ?? 0) > capacity` means a
    subscript write never copies, even when the storage is shared: `Set`
    keeps the header and writes into the shared storage (`NeedsCopy`).
  - The same guard means the "Tried to shrink" precondition and the free of
    the old storage inside `aboutToWrite` can never fire (`NeedsCopy`).
  - Inside the generic class body Swift binds `areEqual` and `purgeContents`
    statically to the unconstrained overloads. So the subscript setter always
    writes (its `areEqual` is the always-false one, line 240), and `deinit`
    always calls the no-op `purgeContents` (line 219). The `Equatable` and
    `AnyObject` extensions are never reached from the class body.
  - The field observer `didSet` on `headerPtr` is taken to rebind `buffer`
    in the initialisers too. Swift does not run observers inside an
    initialiser. The code's comment says it relies on them there.

## Model

| member | source | states |
|---|---|---|
| `AsyncChannel.State.IsPending` | Sources/AsyncChannel.swift:75-80 | true exactly in state `pending` |
| `AsyncChannel.State.IsCancelled` | Sources/AsyncChannel.swift:82-87 | true exactly in state `cancelled` |
| `AsyncChannel.State.Value` | Sources/AsyncChannel.swift:89-94 | the cached value is present exactly when the state is `fulfilled`, and it is that state's value |
| `AsyncChannel.StateAccessorsPartition` | Sources/AsyncChannel.swift:70-95 | `isPending`, `isCancelled` and a present `value` tell the three states apart: exactly one holds |
| `AsyncChannel.ResumeAll` | Sources/AsyncChannel.swift:121 | resuming `continuations.values` resumes every stored waiter exactly once, with the given outcome, and nobody else |
| `AsyncChannel.ResumeCountMatchesWaiters` | Sources/AsyncChannel.swift:121-130 | such a batch holds exactly as many resumes as the dictionary held waiters |
| `AsyncChannel.AtMostOnceCount` | Sources/AsyncChannel.swift:121-130 | a log with no continuation twice has as many entries as distinct continuations |
| `AsyncChannel.InjectiveValuesCount` | Sources/AsyncChannel.swift:97 | a dictionary storing no continuation twice has as many distinct waiters as keys |
| `AsyncChannel.StoreAddsValue` | Sources/AsyncChannel.swift:108 | storing a continuation under an id not yet in the dictionary adds exactly that continuation to the stored ones |
| `AsyncChannel.ForgetRemovesValue` | Sources/AsyncChannel.swift:111-114 | removing an id from a dictionary that stores no continuation twice removes exactly that id's continuation |
| `AsyncChannel.FlushAccounts` | Sources/AsyncChannel.swift:121-130 | appending a batch that resumes every stored waiter once keeps at-most-once, resumes exactly the stored and the earlier-resumed continuations, and keeps the earlier log as a prefix |
| `AsyncChannel.FlushKeepsConsistent` | Sources/AsyncChannel.swift:116-131 | resuming every stored waiter once and emptying the dictionary keeps the buffer's invariant in the state that follows, and then every continuation ever handed over has been resumed |
| `AsyncChannel.AtMostOnceConcat` | Sources/AsyncChannel.swift:111-131 | appending resumes of continuations not yet resumed keeps "each continuation resumed at most once" |
| `AsyncChannel.Buffer.constructor` | Sources/AsyncChannel.swift:97-98 | a new buffer is pending, with no waiters and nothing resumed |
| `AsyncChannel.Buffer.AddContinuationIfNeeded` | Sources/AsyncChannel.swift:100-109 | cancelled is excluded; the continuation and the id must be new (each `value` call creates its own continuation, line 34, and draws a fresh UUID, line 31); when fulfilled, the waiter is resumed at once with the cached value and not stored; otherwise it is stored under its id and nothing else changes; the invariant (at-most-once, nothing lost, single value) is kept |
| `AsyncChannel.Buffer.CancelContinuation` | Sources/AsyncChannel.swift:111-114 | only the waiter under `id` is resumed with a cancellation error and removed; an unknown id changes nothing |
| `AsyncChannel.Buffer.Send` | Sources/AsyncChannel.swift:116-123 | no-op on a cancelled buffer; a fulfilled one is excluded ("only 1 value"); on a pending one the state becomes `fulfilled(v)`, every stored waiter is resumed once with `v`, the dictionary empties, and every continuation ever handed over has now been resumed |
| `AsyncChannel.Buffer.Cancel` | Sources/AsyncChannel.swift:125-131 | from any state: `cancelled`, every stored waiter resumed once with a cancellation error, dictionary empty, so every continuation ever handed over has now been resumed |
| `AsyncChannel.LateJoinReceivesCachedValue` | Sources/AsyncChannel.swift:100-123 | a waiter registered after `send` gets the same value at once, as the waiter that was waiting did, and nobody stays stored |
| `AsyncChannel.CancelBeforeSend` | Sources/AsyncChannel.swift:111-131 | cancelling before a value arrives resumes the waiter with a cancellation error, and a later `send` changes nothing |
| `PromiseActor.ResumeWaitingRoom` | Sources/Promise.swift:39 | the loop resumes every waiter of the room, in room order, with the result |
| `PromiseActor.WakesEachOnce` | Sources/Promise.swift:39 | resolving a room of distinct waiters wakes each of them at most once |
| `PromiseActor.ResolvingTwiceWakesAgain` | Sources/Promise.swift:31-41 | since the room is never cleared, resolving a non-empty room twice wakes its first waiter twice |
| `PromiseActor.Promise.constructor` | Sources/Promise.swift:22-23 | a new promise is pending with an empty room |
| `PromiseActor.Promise.Fulfill` | Sources/Promise.swift:23-28 | status becomes `finished(successful(v))`, the room is unchanged, each waiter in it is woken once with that result; `cancelled` is never produced |
| `PromiseActor.Promise.Resolve` | Sources/Promise.swift:31-41 | nothing while pending; once finished, one wake per waiter in the room with the result |
| `PromiseActor.Promise.Value` | Sources/Promise.swift:44-52 | when finished, returns the stored result and leaves the room alone; when pending, appends exactly this waiter to the end of the room |
| `PromiseActor.FulfilScenario` | Sources/Promise.swift:28-50 | two waiters are woken in order with the value, and a later reader gets it without waiting |
| `TimerRuntime.Runtime.constructor` | Bridging/FFI.h:236-244 | assumed foreign behaviour: the service starts with no timers and no destroy calls, ready to hand out non-zero ids |
| `TimerRuntime.Runtime.Start` | Bridging/FFI.h:236-244 | assumed foreign behaviour: id 0 or an unknown id gets a fresh non-zero id; a held id is reused; the timer runs with the given mode and duration |
| `TimerRuntime.Runtime.Stop` | Bridging/FFI.h:258-260 | assumed: the timer under the id stops running |
| `TimerRuntime.Runtime.Restart` | Bridging/FFI.h:262-264 | assumed: the timer under the id runs again |
| `TimerRuntime.Runtime.Destroy` | Bridging/FFI.h:254-256 | assumed: the id leaves the table and the destroy call is logged |
| `TimerRuntime.Runtime.Running` | Bridging/FFI.h:266-268 | assumed: true exactly when the id is held and running |
| `SlintTimerCore.SlintTimer.constructor` | Sources/Core/Timer.swift:16-19 | a new handle holds no id |
| `SlintTimerCore.SlintTimer.Start` | Sources/Core/Timer.swift:81-97 | passes the held id, or 0, to the foreign start; keeps the returned id, which is afterwards always present and unchanged when one was held |
| `SlintTimerCore.SlintTimer.WillRunAfter` | Sources/Core/Timer.swift:34-36 | starts in `SingleShot` mode with the given duration |
| `SlintTimerCore.SlintTimer.WillRunEvery` | Sources/Core/Timer.swift:42-44 | starts in `Repeated` mode with the given duration |
| `SlintTimerCore.SlintTimer.Stop` | Sources/Core/Timer.swift:49-56 | no-op without an id; otherwise stops that id and keeps it |
| `SlintTimerCore.SlintTimer.Drop` | Sources/Core/Timer.swift:59-64 | destroys the held timer once and clears the id; without an id nothing happens |
| `SlintTimerCore.SlintTimer.Restart` | Sources/Core/Timer.swift:67-69 | no-op without an id; otherwise restarts that same id |
| `SlintTimerCore.SlintTimer.Running` | Sources/Core/Timer.swift:72-78 | false without an id; otherwise the foreign running state of that id |
| `SlintTimerCore.SlintTimer.Deinit` | Sources/Core/Timer.swift:22-28 | destroys the foreign timer if and only if an id is held |
| `SlintTimerCore.RestartKeepsIdentity` | Sources/Core/Timer.swift:49-78 | after start, stop and restart the handle keeps its id, reports not running after the stop and running after the restart |
| `SlintTimerCore.DropTwiceDestroysOnce` | Sources/Core/Timer.swift:22-64 | drop, drop, deinit destroy the foreign timer exactly once |
| `SlintTimerLegacy.SlintTimer.constructor` | Sources/Timer.swift:14-17 | a new handle holds no id |
| `SlintTimerLegacy.SlintTimer.Start` | Sources/Timer.swift:71-85 | passes `id ?? 0` to the foreign start and keeps the returned id |
| `SlintTimerLegacy.SlintTimer.WillRunAfter` | Sources/Timer.swift:32-34 | starts in `SingleShot` mode with the given duration |
| `SlintTimerLegacy.SlintTimer.WillRunEvery` | Sources/Timer.swift:40-42 | starts in `Repeated` mode with the given duration |
| `SlintTimerLegacy.SlintTimer.Stop` | Sources/Timer.swift:47-54 | no-op without an id; otherwise stops that id and keeps it |
| `SlintTimerLegacy.SlintTimer.Restart` | Sources/Timer.swift:57-59 | no-op without an id; otherwise restarts the held id |
| `SlintTimerLegacy.SlintTimer.Running` | Sources/Timer.swift:62-68 | false without an id; otherwise the foreign running state |
| `SlintTimerLegacy.SlintTimer.Deinit` | Sources/Timer.swift:20-26 | destroys the foreign timer if and only if an id is held |
| `SlintTimerLegacy.RestartKeepsIdentity` | Sources/Timer.swift:47-68 | after start, stop and restart the handle keeps its id and reports running |
| `SharedVectors.CalculateSizeAlignment` | Sources/INCOMPLETE/SharedVector.swift:274-278 | size is element size times capacity plus the header size, alignment the header's; defined only where the `Int`/`UInt` arithmetic does not trap |
| `SharedVectors.AreEqual` | Sources/INCOMPLETE/SharedVector.swift:240 | both overloads: true only for equal values, and never for the unconstrained one, which is the one the class body calls (the `Equatable` overload at line 324 is never reached from it) |
| `SharedVectors.NeedsCopy` | Sources/INCOMPLETE/SharedVector.swift:192 | the copy-on-write guard: with no requested capacity it never passes, whatever the count; past it a capacity was requested and exceeds the current one, so the shrink precondition (line 196) cannot fire; past it the decremented count stays positive, so the free at line 209 cannot happen |
| `SharedVectors.VectorRuntime.constructor` | Sources/INCOMPLETE/SharedVector.swift:14 | the shared empty header has count -1, size 0 and capacity 0 |
| `SharedVectors.VectorRuntime.Allocate` | Sources/INCOMPLETE/SharedVector.swift:15 | assumed foreign behaviour: fresh memory for a header and the requested number of element slots (the mock returns a fixed address) |
| `SharedVectors.VectorRuntime.Release` | Sources/INCOMPLETE/SharedVector.swift:16 | assumed foreign behaviour: the free is recorded with the pointer, size and alignment it was given, and nothing else changes |
| `SharedVectors.NewVector` | Sources/INCOMPLETE/SharedVector.swift:254-271 | a fresh header with count 1, size 0, the given capacity and that many element slots |
| `SharedVectors.SharedVector.Empty` | Sources/INCOMPLETE/SharedVector.swift:100-106 | points at the shared empty header; `endIndex` is 1 |
| `SharedVectors.SharedVector.WithValues` | Sources/INCOMPLETE/SharedVector.swift:110-120 | keeps the given runtime and layout; a fresh header and fresh storage for the values, filled by `copyFromCollection`, whose bound admits only an empty list |
| `SharedVectors.SharedVector.SetHeaderPtr` | Sources/INCOMPLETE/SharedVector.swift:127-134 | assigning the header pointer rebinds the element buffer to that header's storage |
| `SharedVectors.SharedVector.WriteHeader` | Sources/INCOMPLETE/SharedVector.swift:137-146 | a header write stores the new count and size and resets `endIndex` to the size |
| `SharedVectors.SharedVector.Get` | Sources/INCOMPLETE/SharedVector.swift:65-70 | requires 0 <= position < buffer count; returns the stored element |
| `SharedVectors.SharedVector.Set` | Sources/INCOMPLETE/SharedVector.swift:71-82 | same bounds; afterwards the element at the position is the new value and nothing else changed: even on a shared header (count above 1) the header and storage are kept, so the write lands in the shared storage |
| `SharedVectors.SharedVector.AboutToWrite` | Sources/INCOMPLETE/SharedVector.swift:190-216 | without a shared header and a larger requested capacity nothing changes; otherwise a fresh header of that capacity with count 1 and size 0, and the old header's count is one lower while its size, capacity and storage stay as they were for the other references; nothing is freed |
| `SharedVectors.SharedVector.Append` | Sources/INCOMPLETE/SharedVector.swift:87-96 | unshared: the item is written at `endIndex` in place and size grows by 1; shared: a fresh header one slot larger, with fresh storage, gets the item at the old size and size 1, and the old count drops by 1 while the old header's size and capacity and its storage, still seen by the other references, are left alone |
| `SharedVectors.SharedVector.CopyFromCollection` | Sources/INCOMPLETE/SharedVector.swift:175-186 | requires start + count < `endIndex`; the items land at start.. in order, the rest of the storage is kept, size and `endIndex` become start + count |
| `SharedVectors.SharedVector.Deinit` | Sources/INCOMPLETE/SharedVector.swift:152-171 | a count at or below 0 (the shared empty header) is untouched; otherwise it drops by exactly 1, size and capacity are kept, and the storage is freed, with the computed size and alignment, exactly when it reaches 0 |
| `SharedVectors.SharedVector.FreeVector` | Sources/INCOMPLETE/SharedVector.swift:223-237 | requires count 0; frees the storage once and points at the shared empty header |
| `SharedVectors.ReleaseScenario` | Sources/INCOMPLETE/SharedVector.swift:152-171 | releasing a vector on the shared empty header frees nothing; releasing the only reference to a fresh header frees it once |

## Left out

- The public `AsyncChannel` wrapper (`value`, `send`, `cancel`, `map`): task spawning and cancellation handlers only. `Buffer` is driven directly.
- The continuations' actual resumption of tasks; a resume is a log entry.
- The executor and actor plumbing (Sources/Actor.swift, Sources/SlintActor.swift, Sources/Runtime/Actor.swift): Swift runtime hooks whose point is concurrency.
- Event-loop start and stop (Sources/EventLoop.swift, Sources/Runtime/EventLoop.swift, Sources/Slint.swift): a blocking foreign run loop. `start` schedules the readiness timer before it calls the run loop (Sources/EventLoop.swift:64-70); this is not modelled.
- Closure and callback capsules (Sources/WrappedClosure.swift, Sources/Callback.swift, Sources/Core/Callback.swift): retain/release and pointer casts. So the timer closure, the wrapper that keeps the handle alive, and `holdOntoThis` are not modelled.
- The foreign timer service: its code is not part of this model. `TimerRuntime` states the behaviour the handles rely on, and that behaviour is assumed, not derived.
- The `print` calls in `stop` and `start`, including the `running` read that `stop` makes only to print it.
- The foreign runtime is passed to each handle; in the source it is global.
- SharedVector: the atomic `refCount` is a plain integer. The pointer layout, `getEmptyVector`'s cast and `index(after:)` are left out. `deinit`'s `purgeContents` call binds to the no-op at line 219, so nothing is modelled for it.
- SharedVector: the `AnyObject` extension (retain and release of objects, SharedVector.swift:284-320) is reachable only from code outside the class body with a concrete class element type; its `purgeContents` and subscript are not modelled.
- SharedVector: Swift's `Int` overflow traps are modelled only for `calculateSizeAlignment`. `append`'s `header.capacity + 1` and `header.size += 1` (SharedVector.swift:89, :95) would trap at `Int.max`; the model's integers are unbounded there.
- SharedVector: other references to a header exist only as its count. Writes through one vector object are not tracked on the other objects that share the header.
- `SharedVectors.SharedVector.CopyFromCollection`: requires `0 <= startingAt` and that the copied range fits the storage, even for an empty list. Those are the subscript's bounds. The source checks them only per element, and every caller passes the default 0.
- `SharedVectors.SharedVector.Empty`: assumes the `headerPtr` observer runs inside the initialiser, although Swift skips it there. In a debug build the placeholder buffer with count -1 (SharedVector.swift:103) fails the standard library's `count >= 0` check and traps; the model lets the initialiser complete, as an optimised build does.
- `SharedVectors.SharedVector.WithValues`: the same placeholder buffer (SharedVector.swift:113) traps in a debug build; the model lets the initialiser complete.
- `SharedVectors.SharedVector.AboutToWrite`: the copying path builds its temporary with `Self()` (SharedVector.swift:199), which traps on the placeholder buffer in a debug build; the model lets it complete.
- `AsyncChannel.Buffer.Send`: only the debug-build behaviour is modelled. In an optimised build the "only 1 value" assertion (AsyncChannel.swift:118) is compiled out, so a second `send` overwrites the cached value (lines 119-120), and later waiters receive the new value.
- `AsyncChannel.Buffer.AddContinuationIfNeeded`: only the debug-build behaviour is modelled. In an optimised build the assertion at AsyncChannel.swift:101 is compiled out, so a waiter registering on a cancelled channel is stored (line 108) and never resumed. Its id is required to be new, which the fresh UUID per `value` call guarantees; an existing id would be overwritten and its waiter lost.
- The wrapper's races are not modelled: `cancelContinuation` may run before the matching `addContinuationIfNeeded`, which then stores a waiter whose task is already cancelled (it is resumed only by a later `send` or `cancel`); and a continuation created after the task was cancelled is never resumed (AsyncChannel.swift:35).
- Property, PropertyTracker, SharedString, the interpreter and compiler files, and the FFI headers are call forwarding. Size.swift and the examples are trivia.
