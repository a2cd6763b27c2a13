# k8s-lease-lock, modelled in Dafny

`K8SLock` is a distributed lock built on a Kubernetes `coordination.k8s.io/v1`
Lease. One attempt (`_lock`) reads the lease, or creates a bare one when it
is missing and auto-creation is on. It then decides from the lease fields:

- The lease is expired when its `renewTime` is earlier than now.
- It is self-held when `holderIdentity` is this lock's `lockLeaserId`.

If either holds, the attempt sends one merge patch. The patch is guarded by
the `resourceVersion` just read and names this lock as holder until
`stamp` + lease duration (the holder is omitted when no id is set). A 409 conflict answer is a normal `false`; any other
error is thrown. Around the attempt sit the constructor's defaults, the
retry loop `getLock(true)`, `startLocking`, the renewal loop `_keepLocking`
and `stopLocking`. Together they drive two flags, `isLocking` and
`keepLocking`.

The model has five modules:

- `LeaseApi` (`lease_api.dfy`) holds the Lease object and the requests the
  lock sends. It also holds the scripted answers for one attempt: a `Round`
  carries the read, create and patch answers and two clock readings. It
  gives the server's merge of a patch into a spec (`MergeSpec`).
- `LockDecision` (`lock_decision.dfy`) holds the configuration defaults and
  one attempt as pure functions. `Fetch` is the read-or-create phase,
  `Decide` the decision and patch phase, and `Attempt` the two together.
  `PatchBody` builds the patch body. An attempt's result and calls do not
  depend on `isLocking`. `LockingAfter` gives the `isLocking` an attempt
  leaves behind.
- `LockLoops` (`lock_loops.dfy`) holds the two loops as recursive functions
  over a finite script. Their properties are stated as lemmas
  (`RetryOutcome`, `GetLockOutcome`, `KeepLockingOutcome` and the others).
- `K8sLock` (`k8s_lock.dfy`) holds the class `K8SLock`. Its fields are
  `isLocking`, `keepLocking` and `calls`, the requests sent and the sleeps
  awaited. Each method updates these fields step by step, as the source
  does. `Lock`, `GetLock` and `KeepLocking` are proved equal to `Attempt`,
  `GetLockSpec` and `KeepLockingSpec`; the other methods state their whole
  effect on the fields.
- `LockScenarios` (`scenarios.dfy`) states two scenarios from the
  original test file as verified methods on a fresh lock.

Time is integer milliseconds. `Round.now` is the reading taken for the
expiry test (`new Date()`). `Round.stamp` is the later reading taken for
the new times (`new V1MicroTime()`).

Some behaviours of the code are easy to misread; the model follows the
code:

- An absent `renewTime` is read as the epoch (`renewTime || 0`). So an
  absent `renewTime` makes the lease expired for any clock reading after
  1970, and not for all readings.
- The renewal loop clears `keepLocking` after a `false`. It still sleeps
  once more before the loop test sees the cleared flag.
- An error thrown by an attempt inside the renewal loop ends the loop but
  leaves `keepLocking` set.
- An undefined `lockLeaserId` equals an undefined holder. So a lock without
  an id counts a holder-less lease as self-held. Its patch body then carries
  no `holderIdentity`.
- The create of a missing lease runs inside the read's error handler, so
  an error from the create is thrown. A 409 there (another process created
  the lease first) is not a normal `false`: `getLock(true)` and
  `startLocking` stop with that error.
- Before `startLocking`, `keepLocking` is undefined in the source. That is
  falsy, so the model starts it as `false`.

## Model

| member | source | states |
|---|---|---|
| `LockDecision.Falsy` | k8s_lock.js:40-43 | An interval option is replaced by its default when it is undefined or 0, the falsy values `\|\|` skips. |
| `LockDecision.Resolve` | k8s_lock.js:18-43 | Lease duration defaults to 30 only when undefined. `refreshLock` is half the duration in ms and `lockTryInterval` the full duration in ms when the option is undefined or 0, else the value given. `createLeaseIfNotExist` is true unless given as false. Labels default to empty. |
| `K8sLock.K8SLock.constructor` | k8s_lock.js:18-45 | The lock keeps the resolved configuration and starts with `isLocking` false, `keepLocking` false and no calls made. |
| `LockDecision.CreateBody` | k8s_lock.js:83-92 | The create request carries the lease name and the configured labels, and an empty spec. |
| `LockDecision.BareLease` | k8s_lock.js:83-92 | The lease the create answers with: the create body plus the server's `resourceVersion`, still with an empty spec. |
| `LockDecision.IsExpired` | k8s_lock.js:101 | `renewTime`, read as 0 when absent, is strictly earlier than `now`. |
| `LockDecision.IsHeldBy` | k8s_lock.js:97-119 | The lease's `holderIdentity` equals this lock's `lockLeaserId`; two undefined values are equal. The same test is made at lines 97, 102 and 119. |
| `LockDecision.MayClaim` | k8s_lock.js:100-103 | The lease may be patched when it is expired or self-held. |
| `LockDecision.PatchBody` | k8s_lock.js:104-122 | The body carries the `resourceVersion` just read and the configured labels. Merged into the lease, it sets the holder to our id (when defined), the lease duration, and `renewTime` = stamp + duration * 1000. On self-renewal the body has no `leaseTransitions` or `acquireTime`, so both keep their values. On a change of holder, `leaseTransitions` becomes old (or 0) + 1 and `acquireTime` the stamp. |
| `LockDecision.Fetch` | k8s_lock.js:76-96 | The first call is always the read. A found lease is used as read. A 404 with auto-create sends exactly one create of a bare lease (configured labels, empty spec) and uses it, or throws the create's error. A 404 without auto-create, and any other read error, is thrown unchanged with no further call. |
| `LockDecision.Decide` | k8s_lock.js:97-139 | A lease that is neither expired nor self-held gives `false` and no write. Otherwise exactly one patch with `PatchBody` is sent. Success gives `true`, a 409 gives `false`, and any other error is thrown. The outcome records whether the lease named us holder, which is what `LockingAfter` needs for the reset of `isLocking` at lines 97-99. |
| `LockDecision.LockingAfter` | k8s_lock.js:97-139 | After an attempt that returns, `isLocking` equals the value returned (set at lines 129, 134 and 137). After one that throws, it keeps its value, unless the lease read named this lock as holder, in which case it was cleared at line 98. |
| `LockDecision.Attempt` | k8s_lock.js:73-140 | The first call is the read. A read or create error is thrown with no further call and does not count as self-held, so `isLocking` is unchanged. A `true` result, and any attempt on a self-held lease, ends with a patch. No patch is sent before the last call. The result and the calls do not depend on `isLocking`. |
| `LockDecision.CreatedLeaseIsClaimed` | k8s_lock.js:82-103 | A missing lease that is created is claimed at once when the clock is after the epoch: the calls are read, create, then one patch of the bare lease. |
| `K8sLock.K8SLock.Lock` | k8s_lock.js:73-140 | `_lock` returns or throws what `Attempt` gives and appends exactly `Attempt`'s calls. It leaves `isLocking` equal to the value returned, or, on a throw, as before unless the lease read named us holder (`LockingAfter`). `keepLocking` is untouched. |
| `LockLoops.Retry` | k8s_lock.js:169-174 | From round i: attempt; a throw ends the loop with that error, `true` ends it with `true`, and `false` sleeps `lockTryInterval` and attempts again on the next round. A script that runs out is `Waiting`. |
| `LockLoops.GetLockSpec` | k8s_lock.js:168-177 | `getLock(true)` is `Retry` from round 0. `getLock(false)` is one attempt whose result is returned or thrown. |
| `LockLoops.RetryOutcome` | k8s_lock.js:171-174 | The retry loop (`Retry`) never returns `false`. It returns `true` only with `isLocking` set. It only extends the calls made so far. It runs out of script only right after sleeping `lockTryInterval`. |
| `LockLoops.GetLockOutcome` | k8s_lock.js:168-177 | `getLock(true)` (`GetLockSpec`) never returns `false`, and returns `true` only with `isLocking` set. `getLock(false)` makes exactly one attempt and returns or throws its result. For `getLock(true)` the error path is `RetryStopsAtFirstThrow`. |
| `LockLoops.RetryStopsAtFirstThrow` | k8s_lock.js:169-176 | If every earlier attempt gives `false` and attempt k throws, then `getLock(true)` rethrows attempt k's error after exactly k + 1 attempts, and no later attempt is made. |
| `LockLoops.RetryStopsAtFirstSuccess` | k8s_lock.js:169-176 | If every earlier attempt gives `false` and attempt k gives `true`, then `getLock(true)` returns `true` after exactly k + 1 attempts, with `isLocking` set and a patch as its last call. |
| `LockLoops.BusyThenExpiredIsAcquired` | __tests__/k8s_lock_tests.js:161-203 | With a live foreign lease on the first read and an expired lease on the second, `getLock(true)` sends read, sleep, read, patch and returns `true`. |
| `K8sLock.K8SLock.GetLock` | k8s_lock.js:168-177 | The loop's result, attempts used, final `isLocking` and calls are those of `GetLockSpec`. `keepLocking` is untouched. |
| `K8sLock.K8SLock.StartLocking` | k8s_lock.js:152-162 | `startLocking` waits as `getLock(true)` does. When it returns, the value is `Returned(true)`, standing for the object `{ isLocking: true }`, and both `isLocking` and `keepLocking` are set. When it throws or is still waiting, `keepLocking` is unchanged. |
| `K8sLock.K8SLock.StopLocking` | k8s_lock.js:164-166 | Only `keepLocking` changes, to false. No call is made. |
| `LockLoops.KeepLockingSpec` | k8s_lock.js:142-150 | While `keepLocking`: attempt; a throw ends the loop with `keepLocking` still set; a `false` clears `keepLocking`; then sleep `refreshLock`, and a `stopLocking` during the iteration clears `keepLocking` too. A script that runs out is `Running`. |
| `LockLoops.KeepLockingOutcome` | k8s_lock.js:142-150 | For the renewal loop (`KeepLockingSpec`): a loop that finds `keepLocking` cleared makes no call and changes nothing. Exiting implies `keepLocking` is false. A thrown attempt ends the loop with `keepLocking` still set. The calls made so far are only extended. |
| `LockLoops.RenewalEndsAtFirstLossOrStop` | k8s_lock.js:143-149 | The renewal loop runs exactly until the first iteration whose attempt gives `false` or during which `stopLocking` is called. That iteration ends with its sleep, the loop exits with `keepLocking` false and `isLocking` equal to that attempt's result (false after a loss, still true after a stop), and no attempt follows. |
| `LockLoops.NoRenewalAfterStop` | k8s_lock.js:143-149 | No renewal iteration runs after one during which `stopLocking` was called, whatever the attempts return. |
| `K8sLock.K8SLock.KeepLocking` | k8s_lock.js:142-150 | The loop's end, iterations run, both flags and calls are those of `KeepLockingSpec`. |
| `LockScenarios.StartOnExpiredLease` | __tests__/k8s_lock_tests.js:111-131 | On a fresh lock and an expired lease, `startLocking` returns `true` with `isLocking` and `keepLocking` both set. |
| `LockScenarios.PatchesAppend` | __tests__/k8s_lock_tests.js:133-159 | The patch count of two call records in a row is the sum of their counts. |
| `LockScenarios.StopBeforeRenewal` | __tests__/k8s_lock_tests.js:133-159 | If `stopLocking` follows `startLocking`, the renewal loop exits at once. The initial claim stays the only patch. |

## Left out

- `k8s_lock.cjs` is not part of this model. It is a lazy-loading wrapper that forwards every call and copies the two flags back.
- `headerPatchMiddleware` and `_buildPatchConfig` (HTTP header and client configuration) are part of the opaque patch call. `_buildPatchConfig` can throw when the kube config has no cluster or server. It is called inside the patch's `try`, so that error is one more `PatchFailed` with no code. It is an argument of `patchNamespacedLease` (k8s_lock.js:123-126), so when it throws the patch is never sent, yet the model still records a `PatchLease` in `calls` for that case.
- KubeConfig loading, `makeApiClient` and the real read, create and patch requests are not modelled. They are network I/O. Their answers come from the `Round` script, and the requests are recorded in `calls`.
- The create answer is assumed to be the bare lease that was sent, with a fresh `resourceVersion`.
- The server side of a patch is modelled only by `MergeSpec` on the spec fields. The server's new `resourceVersion` and any race between processes on it are properties of the API server. Only the client's reaction to a 409 is modelled.
- `setTimeout` is not modelled. Each sleep is a `Sleep(ms)` entry in `calls`, not real time. The delayed, fire-and-forget launch of `_keepLocking` by `startLocking` is modelled by calling `KeepLocking` separately. The first `refreshLock` delay before it is not recorded.
- Concurrency is modelled only for `stopLocking`. A call to it during renewal iteration i is the `stopped` flag of that iteration. The model treats it as taking effect after the iteration's attempt. A stop during an attempt that then throws is not told apart. Other interleavings on one lock are not modelled, such as a second `startLocking` or a `getLock` while a renewal loop runs.
- `getLock(true)` and `_keepLocking` are unbounded. The model runs them over a finite script. A loop that would go on is reported as `Waiting` or `Running`.
- `Date` and `V1MicroTime` are integer milliseconds supplied per round. JavaScript option values that are not integers (NaN, fractions, strings) are not modelled. Nor is an undefined `leaseName` or `namespace`.
