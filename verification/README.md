# Apple reachability flags and notifier, modelled in Dafny

This project models the iOS core of the `dev.hipporasy.reachability` Kotlin
library. It covers three parts:

- the logic that decodes a SystemConfiguration `SCNetworkReachabilityFlags`
  mask;
- the notifier that registers a flag-change callback with the OS;
- the platform-independent status enumeration and its `isReachable()`
  projection.

Both iOS classes, the ReachabilityCore `Reachability` class and
`NativeReachability`, contain the same code for `connectionStatus`,
`isReachableWithFlags`, the one-shot bit projections, `startNotifier` and
`stopNotifier`. `reachabilityFlags` exists only in ReachabilityCore, and
`isReachableViaWiFi` only in `NativeReachability`.
The two classes differ in their serial queue. NativeReachability's init
creates one. ReachabilityCore's stays null, so its `startNotifier` hands
`SetDispatchQueue` a null queue and never binds one.

Files:

- `flags.dfy` (module `Flags`): the flag mask as `bv32`. It holds the nine
  SystemConfiguration flag constants and `Option`, the answer of one flag
  query (`None` when `SCNetworkReachabilityGetFlags` failed).
- `decoder.dfy` (module `FlagDecoder`): the pure functions over one mask:
  - `connectionStatus`;
  - the one-shot projections (`isReachable`, `isWWAN`, ...) and
    `isReachableViaWiFi`;
  - the verdict of `isReachableWithFlags`;
  - the diagnostic code of `reachabilityFlags`.
- `notifier.dfy` (module `Notifier`): the registration protocol of
  `startNotifier` and `stopNotifier` as pure functions.
  - The OS answers to `SetCallback` and `SetDispatchQueue` are an input
    record, `OsReplies`.
  - Every call issued is an `OsCall`.
  - `Replay` gives the OS-side state after a log of calls: whether a callback
    is installed and whether a queue is bound. An accepted `SetDispatchQueue`
    binds a queue only when the queue it passes is non-null.
- `core_reachability.dfy` (module `ReachabilityCore`) and
  `native_reachability.dfy` (module `NativeReachability`): the two classes.
  - Each has its registered flag and a ghost log of the OS calls it issued.
  - Their `StartNotifier`, `StopNotifier` and `IsReachableWithFlags` methods
    are proved against the functions above.
  - `NativeReachability.ReachabilityChanged` dispatches to the handlers and
    counts posted notifications.
- `status.dfy` (module `Status`): `ReachabilityStatus` and the `isReachable()`
  stream projection.

In `connectionStatus` the IsWWAN test is reached only after the Reachable test
has passed, so `{IsWWAN}` alone gives false.

`isReachable()` is true for every status, `NotReachable` included (see
Findings).

## Model

| member | source | states |
|---|---|---|
| Flags.FlagsAreDistinctSingleBits | ReachabilityCore/src/iosMain/kotlin/dev/hipporasy/reachability/Reachability.kt:27-35 | the nine flag constants are non-zero single bits, pairwise disjoint |
| FlagDecoder.ConnectionStatus | ReachabilityCore/src/iosMain/kotlin/dev/hipporasy/reachability/Reachability.kt:60-83 | flags unavailable or Reachable clear gives false whatever the other bits, IsWWAN included; Reachable with ConnectionRequired clear gives true; Reachable with on-demand or on-traffic and no intervention gives true; in every remaining reachable case the result is the IsWWAN bit |
| FlagDecoder.ConnectionStatusFromProjections | reachability/src/iosMain/kotlin/dev/hipporasy/reachability/NativeReachability.kt:71-94 | for any query answer, the decoder equals "isReachable and (not isConnectionRequired, or isConnectionOnDemandOrTraffic without isInterventionRequired, or isWWAN)" in terms of the one-shot projections; a true decoder implies isReachable |
| FlagDecoder.ConnectionStatusExamples | ReachabilityCore/src/iosMain/kotlin/dev/hipporasy/reachability/Reachability.kt:61-82 | decision table: unavailable, {} and {IsWWAN} give false; {Reachable} gives true; {Reachable, ConnectionRequired} gives false; adding OnDemand or OnTraffic gives true; adding InterventionRequired as well gives false unless IsWWAN is set |
| FlagDecoder.IsTransientConnection | ReachabilityCore/src/iosMain/kotlin/dev/hipporasy/reachability/Reachability.kt:284-287 | false when flags are unavailable, otherwise bit 0 of the mask |
| FlagDecoder.IsReachable | ReachabilityCore/src/iosMain/kotlin/dev/hipporasy/reachability/Reachability.kt:254-257 | false when flags are unavailable, otherwise bit 1 of the mask |
| FlagDecoder.IsConnectionRequired | ReachabilityCore/src/iosMain/kotlin/dev/hipporasy/reachability/Reachability.kt:259-262 | false when flags are unavailable, otherwise bit 2 of the mask |
| FlagDecoder.IsConnectionOnTraffic | ReachabilityCore/src/iosMain/kotlin/dev/hipporasy/reachability/Reachability.kt:274-277 | false when flags are unavailable, otherwise bit 3 of the mask |
| FlagDecoder.IsInterventionRequired | ReachabilityCore/src/iosMain/kotlin/dev/hipporasy/reachability/Reachability.kt:269-272 | false when flags are unavailable, otherwise bit 4 of the mask |
| FlagDecoder.IsConnectionOnDemand | ReachabilityCore/src/iosMain/kotlin/dev/hipporasy/reachability/Reachability.kt:264-267 | false when flags are unavailable, otherwise bit 5 of the mask |
| FlagDecoder.IsConnectionOnDemandOrTraffic | reachability/src/iosMain/kotlin/dev/hipporasy/reachability/NativeReachability.kt:283-286 | testing the union mask equals the OR of isConnectionOnDemand and isConnectionOnTraffic |
| FlagDecoder.IsDirect | reachability/src/iosMain/kotlin/dev/hipporasy/reachability/NativeReachability.kt:293-296 | false when flags are unavailable, otherwise bit 17 of the mask |
| FlagDecoder.IsWWAN | reachability/src/iosMain/kotlin/dev/hipporasy/reachability/NativeReachability.kt:298-301 | false when flags are unavailable, otherwise bit 18 of the mask |
| FlagDecoder.IsReachableViaWiFi | reachability/src/iosMain/kotlin/dev/hipporasy/reachability/NativeReachability.kt:255-261 | over its two OS queries: true exactly when the first answer is reachable and the second is available with IsWWAN clear |
| FlagDecoder.ViaWiFiIsReachableAndNotWWAN | reachability/src/iosMain/kotlin/dev/hipporasy/reachability/NativeReachability.kt:250-261 | when both queries see the same answer, the result is true iff flags are available, Reachable is set and IsWWAN is clear |
| FlagDecoder.ReachableVerdict | ReachabilityCore/src/iosMain/kotlin/dev/hipporasy/reachability/Reachability.kt:236-252 | Reachable clear gives false; with reachableOnWWAN true the verdict is the Reachable bit; with reachableOnWWAN false it is Reachable and IsWWAN both set |
| FlagDecoder.IntendedReachableVerdict | reachability/src/iosMain/kotlin/dev/hipporasy/reachability/NativeReachability.kt:239-245 | corrected verdict: reachable, and not cellular unless reachableOnWWAN |
| FlagDecoder.VerdictsAgreeWhenReachableOnWWAN | reachability/src/iosMain/kotlin/dev/hipporasy/reachability/NativeReachability.kt:232-248 | with reachableOnWWAN true, the value every NativeReachability has, the written and the corrected verdicts agree on every mask |
| FlagDecoder.VerdictsOpposeWhenNotReachableOnWWAN | ReachabilityCore/src/iosMain/kotlin/dev/hipporasy/reachability/Reachability.kt:243-249 | with reachableOnWWAN false, the value ReachabilityCore fixes, the written verdict is the opposite of the corrected one on every mask with Reachable set |
| FlagDecoder.WiFiReportedUnreachable | ReachabilityCore/src/iosMain/kotlin/dev/hipporasy/reachability/Reachability.kt:299 | with reachableOnWWAN false, {Reachable} is reported unreachable and {Reachable, IsWWAN} reachable; the corrected verdict says the reverse |
| FlagDecoder.ReachabilityFlags | ReachabilityCore/src/iosMain/kotlin/dev/hipporasy/reachability/Reachability.kt:96-113 | the code has exactly 10 characters, a space at position 2, and each other position shows the mark of the flag laid out there (CodeFlags, CodeLetters) |
| FlagDecoder.CodeAt | ReachabilityCore/src/iosMain/kotlin/dev/hipporasy/reachability/Reachability.kt:97-112 | positions 0,1,3..9 show 'W','R','c','t','i','C','D','l','d' exactly when IsWWAN, Reachable, ConnectionRequired, TransientConnection, InterventionRequired, ConnectionOnTraffic, ConnectionOnDemand, IsLocalAddress, IsDirect is set, and '-' exactly when it is clear |
| FlagDecoder.EmptyMaskCode | ReachabilityCore/src/iosMain/kotlin/dev/hipporasy/reachability/Reachability.kt:112 | the empty mask prints "-- -------" |
| FlagDecoder.CodeDeterminesCodedFlags | ReachabilityCore/src/iosMain/kotlin/dev/hipporasy/reachability/Reachability.kt:96-113 | two masks print the same code iff they agree on the nine coded flags (the code is injective on those bits and blind to all others) |
| FlagDecoder.BitsAreFlags | ReachabilityCore/src/iosMain/kotlin/dev/hipporasy/reachability/Reachability.kt:27-35 | the bit positions the projections read (0-5, 17, 18) are exactly the bits of the named flag constants |
| FlagDecoder.ProjectionsMatchCode | ReachabilityCore/src/iosMain/kotlin/dev/hipporasy/reachability/Reachability.kt:254-297 | each one-shot projection of an available answer is true iff its letter appears in that answer's code |
| Notifier.Start | ReachabilityCore/src/iosMain/kotlin/dev/hipporasy/reachability/Reachability.kt:179-218 | registered: returns true with no OS call; otherwise returns true and registers iff both SetCallback and SetDispatchQueue are accepted, always issues SetCallback first, ends with ClearCallback when only the queue binding is refused, issues nothing after a refused SetCallback, passes the class's serial queue (null or not) to SetDispatchQueue, never returns false while registered, and leaves the OS side holding a callback exactly when registered and a queue exactly when registered with a non-null queue |
| Notifier.Stop | ReachabilityCore/src/iosMain/kotlin/dev/hipporasy/reachability/Reachability.kt:220-224 | always unregistered afterwards, and from any OS state its calls leave neither callback nor queue |
| Notifier.StartKeepsInSync | ReachabilityCore/src/iosMain/kotlin/dev/hipporasy/reachability/Reachability.kt:200-216 | after any history whose OS side matches the registered flag and the queue's nullness, startNotifier keeps them matching: no half-registered handle after a refused SetDispatchQueue |
| Notifier.StopKeepsInSync | reachability/src/iosMain/kotlin/dev/hipporasy/reachability/NativeReachability.kt:214-218 | after any history, stopNotifier leaves the handle unregistered and the OS side detached |
| Notifier.StopIdempotent | reachability/src/iosMain/kotlin/dev/hipporasy/reachability/NativeReachability.kt:214-218 | a second stopNotifier leaves the same registered flag and OS state as the first |
| Notifier.StartAfterStopReattempts | ReachabilityCore/src/iosMain/kotlin/dev/hipporasy/reachability/Reachability.kt:179-224 | after stopNotifier a startNotifier goes to the OS again, SetCallback first, and succeeds iff both calls are accepted |
| Notifier.RestartIsIdempotent | reachability/src/iosMain/kotlin/dev/hipporasy/reachability/NativeReachability.kt:173-178 | after a successful startNotifier, another one returns true, stays registered and issues no OS call |
| ReachabilityCore.Reachability.constructor | ReachabilityCore/src/iosMain/kotlin/dev/hipporasy/reachability/Reachability.kt:46-49 | a new instance is unregistered with no OS call issued |
| ReachabilityCore.Reachability.StartNotifier | ReachabilityCore/src/iosMain/kotlin/dev/hipporasy/reachability/Reachability.kt:179-218 | result, new registered flag and issued calls are those of Notifier.Start with the null serial queue of line 46; afterwards the OS side holds a callback exactly when registered and never a queue |
| ReachabilityCore.Reachability.StopNotifier | ReachabilityCore/src/iosMain/kotlin/dev/hipporasy/reachability/Reachability.kt:220-224 | unregistered afterwards, the two unregistering calls appended to the log, OS side detached |
| ReachabilityCore.Reachability.IsReachableWithFlags | ReachabilityCore/src/iosMain/kotlin/dev/hipporasy/reachability/Reachability.kt:236-252 | with the class's reachableOnWWAN of false, true iff Reachable and IsWWAN are both set |
| NativeReachability.NativeReachability.constructor | reachability/src/iosMain/kotlin/dev/hipporasy/reachability/NativeReachability.kt:52-69 | a new instance keeps its reachableOnWWAN argument and starts unregistered, with no handlers, no OS call and nothing posted |
| NativeReachability.NativeReachability.StartNotifier | reachability/src/iosMain/kotlin/dev/hipporasy/reachability/NativeReachability.kt:172-212 | result, new registered flag and issued calls are those of Notifier.Start with the serial queue init created; afterwards the OS side holds both a callback and a queue exactly when registered |
| NativeReachability.NativeReachability.StopNotifier | reachability/src/iosMain/kotlin/dev/hipporasy/reachability/NativeReachability.kt:214-218 | unregistered afterwards, the two unregistering calls appended to the log, OS side detached |
| NativeReachability.NativeReachability.IsReachableWithFlags | reachability/src/iosMain/kotlin/dev/hipporasy/reachability/NativeReachability.kt:232-248 | the verdict for the instance's reachableOnWWAN; when that is true, the result is exactly the Reachable bit |
| NativeReachability.NativeReachability.ReachabilityChanged | reachability/src/iosMain/kotlin/dev/hipporasy/reachability/NativeReachability.kt:220-230 | the reachable handler runs (if set) exactly when the verdict holds and the unreachable handler (if set) exactly when it does not; never both, exactly one when both are set; one change notification is posted |
| Status.Ordinal | ReachabilityCore/src/commonMain/kotlin/dev/hipporasy/reachability/Reachability.kt:15-20 | the ordinal is the status's position in the declaration order Unknown, NotReachable, ReachableViaWiFi, Reachable |
| Status.FourStatuses | ReachabilityCore/src/commonMain/kotlin/dev/hipporasy/reachability/Reachability.kt:15-20 | exactly four statuses, each declared once |
| Status.ReachableProjection | ReachabilityCore/src/commonMain/kotlin/dev/hipporasy/reachability/Reachability.kt:23 | the written element projection is true for every status, NotReachable and Unknown included |
| Status.IntendedReachableProjection | ReachabilityCore/src/commonMain/kotlin/dev/hipporasy/reachability/Reachability.kt:23 | corrected projection: true iff the status is ReachableViaWiFi or Reachable |
| Status.ProjectionsDisagreeOnUnknownAndNotReachable | ReachabilityCore/src/commonMain/kotlin/dev/hipporasy/reachability/Reachability.kt:23 | the written and the corrected projection differ exactly on Unknown and NotReachable |
| Status.IsReachableFlow | ReachabilityCore/src/commonMain/kotlin/dev/hipporasy/reachability/Reachability.kt:22-24 | the boolean stream has one element per status, in order, each the projection of that status |
| Status.FlowIsAlwaysTrue | ReachabilityCore/src/commonMain/kotlin/dev/hipporasy/reachability/Reachability.kt:22-24 | whatever statuses are emitted, the projected stream is all true |
| Status.FlowOfConcatenation | ReachabilityCore/src/commonMain/kotlin/dev/hipporasy/reachability/Reachability.kt:22-24 | projecting two consecutive runs of statuses gives the two projected runs, in order |

## Left out

- `getFlags` (`SCNetworkReachabilityGetFlags` with `memScoped`/`alloc`) is a foreign call. Each one-shot function takes its answer as an `Option<Mask>` parameter, `None` meaning the call failed.
- The factories `reachabilityForLocalWiFi` and `reachabilityForInternetConnection` only wrap `SCNetworkReachabilityCreateWithAddress` and `sockaddr_in` construction. When creation fails they end in a `!!` crash, which is not modelled. The model records only that both of `NativeReachability`'s factories pass reachableOnWWAN = true.
- `finalize` only releases the OS handle with `CFRelease`.
- `isIpAddress` is a thin wrapper over `inet_aton`, a library outside this model.
- The callback trampoline `tmReachabilityCallback`, `StableRef` and `staticCFunction` are not modelled. ReachabilityCore leaves the context `info` null and then dereferences it with `!!`, so its OS notifications would crash before reaching `reachabilityChanged`. Pointer semantics are not modelled.
- ReachabilityCore `Reachability.reachabilityChanged` is left out. Both of its handler blocks are constant `null`, so it has no observable effect.
- Dispatch queue creation, `dispatch_async` onto the main queue and `NSNotificationCenter` posting are left out. They concern concurrency and delivery. The model counts one posted notification per `reachabilityChanged`.
- Handler bodies are outside the model. Only how often each handler runs is recorded.
- The `println` on a refused `SetCallback` has no effect on state.
- The results of the two unregistering calls (`SetCallback(ref, null, null)` and `SetDispatchQueue(ref, null)`) are ignored by the source. The model assumes these calls take effect, and that a refused registering call changes nothing on the OS side.
- `reachabilityObject` is modelled as a boolean. Each class itself assigns it only this instance or `null`. In ReachabilityCore it is a public `var`, and an outside assignment of another instance (after which `startNotifier` registers again) is not modelled.
- ReachabilityCore.Reachability.StartNotifier: `reachabilitySerialQueue` is a public `var` that starts null. The model fixes it as null (`hasSerialQueue` is false) and does not model an outside assignment of a queue.
- The model has no delivery channel for OS callbacks. `reachabilityChanged` does not check the registered state, so whether a stale callback can arrive after `stopNotifier` depends on the OS.
- The common `status(): StateFlow` has no iOS implementation, and no code maps decoder output to a `ReachabilityStatus`. There is therefore no status classifier or publication path to model. `IsReachableFlow` models the projection over any emitted sequence.
- The Android `connectionStatus` branches over `ConnectivityManager` platform APIs. `ReachabilityStatus.kt` duplicates the enum. The Gradle files are build configuration.

## Findings

| source | as written | input that shows it | evidently intended | confidence | as-written member | corrected member |
|---|---|---|---|---|---|---|
| ReachabilityCore/src/iosMain/kotlin/dev/hipporasy/reachability/Reachability.kt:243-249 | `connectionUP` is cleared when IsWWAN is CLEAR and reachableOnWWAN is false, under the comment "We're on 3G" | reachableOnWWAN = false: flags {Reachable} (Wi-Fi) give false, flags {Reachable, IsWWAN} give true | clear `connectionUP` when IsWWAN is SET and cellular is not allowed | medium (comments contradict the test; the same code in NativeReachability.kt:239-245 is unobservable there because reachableOnWWAN is true); not executed | FlagDecoder.ReachableVerdict, FlagDecoder.WiFiReportedUnreachable | FlagDecoder.IntendedReachableVerdict, FlagDecoder.VerdictsAgreeWhenReachableOnWWAN |
| ReachabilityCore/src/commonMain/kotlin/dev/hipporasy/reachability/Reachability.kt:23 | the disjunction of `it != NotReachable` and `it != Unknown`, true for every status | NotReachable maps to true | the conjunction of `it != NotReachable` and `it != Unknown` | high (a disjunction of two disequalities against distinct constants is always true); not executed | Status.ReachableProjection | Status.IntendedReachableProjection, Status.ProjectionsDisagreeOnUnknownAndNotReachable |
