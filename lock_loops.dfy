/** The two loops around an attempt, as functions of a finite script of
    rounds: the retry loop of `getLock(true)` and the renewal loop
    `_keepLocking`. Each takes the index of the next round to use and the
    calls made so far, and gives back the calls made by the end. A loop
    whose script runs out before it ends is reported as still waiting or
    still running. */
module LockLoops {
  import opened LeaseApi
  import opened LockDecision

  /** How a `getLock` call ends: it returns, it throws, or it is still
      waiting for a success when the script runs out */
  datatype Run = Returned(value: bool) | Threw(error: ApiError) | Waiting

  /** A `getLock` call: how it ends, the isLocking it leaves, all calls made
      by then and the index of the first round it did not use */
  datatype Acquiring = Acquiring(run: Run, isLocking: bool, calls: seq<ApiCall>, next: nat)

  /** Attempt after attempt from round `i`, sleeping `lockTryInterval`
      after each `false`, until one succeeds or throws. */
  function Retry(cfg: Config, wasLocking: bool, script: seq<Round>, i: nat, trace: seq<ApiCall>): Acquiring
    requires i <= |script|
    decreases |script| - i
  {
    if i == |script| then Acquiring(Waiting, wasLocking, trace, i)
    else
      var o := Attempt(cfg, script[i]);
      var isLocking := LockingAfter(wasLocking, o);
      match o.result
      case Failure(e) => Acquiring(Threw(e), isLocking, trace + o.calls, i + 1)
      case Success(locked) =>
        if locked then Acquiring(Returned(true), isLocking, trace + o.calls, i + 1)
        else Retry(cfg, isLocking, script, i + 1, trace + o.calls + [Sleep(cfg.lockTryInterval)])
  }

  /** The retry loop never returns `false`, returns `true` only with
      isLocking set, only extends the calls made so far, and runs out of
      script only right after sleeping `lockTryInterval`. */
  lemma {:induction false} RetryOutcome(cfg: Config, wasLocking: bool, script: seq<Round>, i: nat, trace: seq<ApiCall>)
    requires i <= |script|
    ensures var a := Retry(cfg, wasLocking, script, i, trace);
      && i <= a.next <= |script|
      && |trace| <= |a.calls| && a.calls[..|trace|] == trace
      && a.run != Returned(false)
      && (a.run == Returned(true) ==> a.isLocking && i < a.next)
      && (a.run == Waiting ==> a.next == |script|)
      && (a.run == Waiting && i < |script| ==>
            |trace| < |a.calls| && a.calls[|a.calls| - 1] == Sleep(cfg.lockTryInterval))
    decreases |script| - i
  {
    if i < |script| {
      var o := Attempt(cfg, script[i]);
      if o.result == Success(false) {
        var trace' := trace + o.calls + [Sleep(cfg.lockTryInterval)];
        RetryOutcome(cfg, false, script, i + 1, trace');
        var a := Retry(cfg, false, script, i + 1, trace');
        assert a.calls[..|trace|] == a.calls[..|trace'|][..|trace|] == trace'[..|trace|] == trace;
      }
    }
  }

  /** `getLock(waitUntilLock)`: one attempt, repeated only when waiting */
  function GetLockSpec(cfg: Config, wasLocking: bool, waitUntilLock: bool, script: seq<Round>, trace: seq<ApiCall>): Acquiring
  {
    if waitUntilLock || script == [] then Retry(cfg, wasLocking, script, 0, trace)
    else
      var o := Attempt(cfg, script[0]);
      match o.result
      case Failure(e) => Acquiring(Threw(e), LockingAfter(wasLocking, o), trace + o.calls, 1)
      case Success(locked) => Acquiring(Returned(locked), locked, trace + o.calls, 1)
  }

  /** `getLock(true)` never returns `false`, and returns `true` only with
      isLocking set; `getLock(false)` makes exactly one attempt and returns
      or throws what it gives. */
  lemma GetLockOutcome(cfg: Config, wasLocking: bool, waitUntilLock: bool, script: seq<Round>, trace: seq<ApiCall>)
    ensures var a := GetLockSpec(cfg, wasLocking, waitUntilLock, script, trace);
      && a.next <= |script|
      && (waitUntilLock ==> a.run != Returned(false))
      && (a.run == Returned(true) ==> a.isLocking)
      && (!waitUntilLock && script != [] ==>
            var o := Attempt(cfg, script[0]);
            && a.next == 1 && a.calls == trace + o.calls && a.isLocking == LockingAfter(wasLocking, o)
            && (o.result.Success? ==> a.run == Returned(o.result.value))
            && (o.result.Failure? ==> a.run == Threw(o.result.error)))
  {
    RetryOutcome(cfg, wasLocking, script, 0, trace);
  }

  /** `getLock(true)` returns true with the attempt that first succeeds, the
      last of its calls being that attempt's patch; every earlier attempt
      returned false and was followed by a sleep. */
  lemma {:induction false} RetryStopsAtFirstSuccess(cfg: Config, wasLocking: bool, script: seq<Round>, i: nat, trace: seq<ApiCall>, k: nat)
    requires i <= k < |script|
    requires forall j :: i <= j < k ==> Attempt(cfg, script[j]).result == Success(false)
    requires Attempt(cfg, script[k]).result == Success(true)
    ensures var a := Retry(cfg, wasLocking, script, i, trace);
      && a.run == Returned(true) && a.isLocking && a.next == k + 1
      && |trace| < |a.calls| && a.calls[|a.calls| - 1].PatchLease?
    decreases k - i
  {
    var o := Attempt(cfg, script[i]);
    if i < k {
      RetryStopsAtFirstSuccess(cfg, LockingAfter(wasLocking, o), script, i + 1, trace + o.calls + [Sleep(cfg.lockTryInterval)], k);
    }
  }

  /** `getLock(true)` rethrows the error of the first attempt that throws:
      every earlier attempt returned false, and no attempt follows. */
  lemma {:induction false} RetryStopsAtFirstThrow(cfg: Config, wasLocking: bool, script: seq<Round>, i: nat, trace: seq<ApiCall>, k: nat)
    requires i <= k < |script|
    requires forall j :: i <= j < k ==> Attempt(cfg, script[j]).result == Success(false)
    requires Attempt(cfg, script[k]).result.Failure?
    ensures var a := Retry(cfg, wasLocking, script, i, trace);
      && a.run == Threw(Attempt(cfg, script[k]).result.error) && a.next == k + 1
    decreases k - i
  {
    var o := Attempt(cfg, script[i]);
    if i < k {
      RetryStopsAtFirstThrow(cfg, LockingAfter(wasLocking, o), script, i + 1, trace + o.calls + [Sleep(cfg.lockTryInterval)], k);
    }
  }

  /** The retry scenario: a first read finds a live lease held by another
      process, the second finds it expired; `getLock(true)` sleeps once and
      then claims the lease with one patch. */
  lemma BusyThenExpiredIsAcquired(cfg: Config, wasLocking: bool, busy: Round, expired: Round)
    requires busy.read.Found? && !MayClaim(cfg, busy.read.lease, busy.now)
    requires expired.read.Found? && IsExpired(expired.read.lease, expired.now) && expired.patch.Patched?
    ensures var a := GetLockSpec(cfg, wasLocking, true, [busy, expired], []);
      && a.run == Returned(true) && a.isLocking && a.next == 2
      && a.calls ==
        [ ReadLease(cfg.leaseName, cfg.namespace),
          Sleep(cfg.lockTryInterval),
          ReadLease(cfg.leaseName, cfg.namespace),
          PatchLease(cfg.leaseName, cfg.namespace, PatchBody(cfg, expired.read.lease, expired.stamp)) ]
  {
    var first := Attempt(cfg, busy);
    assert first.result == Success(false) && first.calls == [ReadLease(cfg.leaseName, cfg.namespace)];
    var second := Attempt(cfg, expired);
    assert second.result == Success(true);
    assert second.calls == [ReadLease(cfg.leaseName, cfg.namespace), PatchLease(cfg.leaseName, cfg.namespace, PatchBody(cfg, expired.read.lease, expired.stamp))];
    var slept := [] + first.calls + [Sleep(cfg.lockTryInterval)];
    assert Retry(cfg, false, [busy, expired], 1, slept) == Acquiring(Returned(true), true, slept + second.calls, 2);
  }

  /** How `_keepLocking` ends: the loop exits, an attempt throws out of it,
      or it is still running when the script runs out */
  datatype LoopEnd = Exited | Aborted(error: ApiError) | Running

  /** One renewal iteration's round, and whether `stopLocking` was called
      while that iteration was suspended (a call during the in-flight attempt
      that then returns normally has the same effect as one during the
      sleep after it) */
  datatype Renewal = Renewal(attempt: Round, stopped: bool)

  /** A run of `_keepLocking`: how it ends, the two flags it leaves, all
      calls made by then and the index of the first iteration not run */
  datatype Renewing = Renewing(end: LoopEnd, isLocking: bool, keepLocking: bool, calls: seq<ApiCall>, next: nat)

  /** While keepLocking: attempt; clear keepLocking on `false`; sleep
      `refreshLock`; look at keepLocking again. */
  function KeepLockingSpec(cfg: Config, wasLocking: bool, keepLocking: bool, renewals: seq<Renewal>, i: nat, trace: seq<ApiCall>): Renewing
    requires i <= |renewals|
    decreases |renewals| - i
  {
    if !keepLocking then Renewing(Exited, wasLocking, false, trace, i)
    else if i == |renewals| then Renewing(Running, wasLocking, true, trace, i)
    else
      var o := Attempt(cfg, renewals[i].attempt);
      match o.result
      case Failure(e) => Renewing(Aborted(e), LockingAfter(wasLocking, o), true, trace + o.calls, i + 1)
      case Success(ok) =>
        KeepLockingSpec(cfg, ok, ok && !renewals[i].stopped, renewals, i + 1, trace + o.calls + [Sleep(cfg.refreshLock)])
  }

  /** A loop that finds keepLocking cleared does nothing more; the loop
      exits only with keepLocking cleared; an attempt that throws ends the
      loop but leaves keepLocking set; the calls made so far are only
      extended. */
  lemma {:induction false} KeepLockingOutcome(cfg: Config, wasLocking: bool, keepLocking: bool, renewals: seq<Renewal>, i: nat, trace: seq<ApiCall>)
    requires i <= |renewals|
    ensures var k := KeepLockingSpec(cfg, wasLocking, keepLocking, renewals, i, trace);
      && i <= k.next <= |renewals|
      && |trace| <= |k.calls| && k.calls[..|trace|] == trace
      && (!keepLocking ==> k == Renewing(Exited, wasLocking, false, trace, i))
      && (k.end == Exited ==> !k.keepLocking)
      && (k.end == Running ==> k.keepLocking && k.next == |renewals|)
      && (k.end.Aborted? ==> k.keepLocking && i < k.next)
    decreases |renewals| - i
  {
    if keepLocking && i < |renewals| {
      var o := Attempt(cfg, renewals[i].attempt);
      if o.result.Success? {
        var ok := o.result.value;
        var trace' := trace + o.calls + [Sleep(cfg.refreshLock)];
        KeepLockingOutcome(cfg, ok, ok && !renewals[i].stopped, renewals, i + 1, trace');
        var k := KeepLockingSpec(cfg, ok, ok && !renewals[i].stopped, renewals, i + 1, trace');
        assert k.calls[..|trace|] == k.calls[..|trace'|][..|trace|] == trace'[..|trace|] == trace;
      }
    }
  }

  /** The renewal loop runs exactly up to the first iteration whose attempt
      returns false or during which `stopLocking` is called: that iteration
      completes with its sleep, and no attempt (so no patch) follows it. */
  lemma {:induction false} RenewalEndsAtFirstLossOrStop(cfg: Config, wasLocking: bool, renewals: seq<Renewal>, i: nat, trace: seq<ApiCall>, k: nat)
    requires i <= k < |renewals|
    requires forall j :: i <= j < k ==> Attempt(cfg, renewals[j].attempt).result == Success(true) && !renewals[j].stopped
    requires Attempt(cfg, renewals[k].attempt).result.Success?
    requires Attempt(cfg, renewals[k].attempt).result == Success(false) || renewals[k].stopped
    ensures var e := KeepLockingSpec(cfg, wasLocking, true, renewals, i, trace);
      && e.end == Exited && !e.keepLocking && e.next == k + 1
      && e.isLocking == Attempt(cfg, renewals[k].attempt).result.value
      && |trace| < |e.calls| && e.calls[|e.calls| - 1] == Sleep(cfg.refreshLock)
    decreases k - i
  {
    var o := Attempt(cfg, renewals[i].attempt);
    var trace' := trace + o.calls + [Sleep(cfg.refreshLock)];
    if i < k {
      RenewalEndsAtFirstLossOrStop(cfg, true, renewals, i + 1, trace', k);
    } else {
      assert KeepLockingSpec(cfg, o.result.value, false, renewals, i + 1, trace').calls == trace';
    }
  }

  /** A renewal loop never runs an iteration after one during which
      `stopLocking` was called, whatever the attempts return. */
  lemma {:induction false} NoRenewalAfterStop(cfg: Config, wasLocking: bool, keepLocking: bool, renewals: seq<Renewal>, i: nat, trace: seq<ApiCall>, k: nat)
    requires i <= k < |renewals| && renewals[k].stopped
    ensures KeepLockingSpec(cfg, wasLocking, keepLocking, renewals, i, trace).next <= k + 1
    decreases k - i
  {
    if keepLocking && i < k {
      var o := Attempt(cfg, renewals[i].attempt);
      if o.result.Success? {
        NoRenewalAfterStop(cfg, o.result.value, o.result.value && !renewals[i].stopped, renewals, i + 1,
                           trace + o.calls + [Sleep(cfg.refreshLock)], k);
      }
    }
  }
}
