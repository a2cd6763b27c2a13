/** The lock object: its configuration, the two flags it updates in place,
    and the record of what it has sent to the API server and waited for. */
module K8sLock {
  import opened LeaseApi
  import opened LockDecision
  import opened LockLoops

  class K8SLock {
    const config: Config
    var isLocking: bool
    var keepLocking: bool
    /** The requests sent and the sleeps awaited, oldest first */
    var calls: seq<ApiCall>

    constructor (opts: LockOptions)
      ensures config == Resolve(opts)
      ensures !isLocking && !keepLocking && calls == []
    {
      config := Resolve(opts);
      isLocking := false;
      keepLocking := false;
      calls := [];
    }

    /** `_lock`: one attempt to claim or renew the lease */
    method Lock(r: Round) returns (res: Result<bool>)
      modifies this
      ensures var o := Attempt(config, r);
        res == o.result && isLocking == LockingAfter(old(isLocking), o) && calls == old(calls) + o.calls
      ensures keepLocking == old(keepLocking)
    {
      ghost var f := Fetch(config, r);
      calls := calls + [ReadLease(config.leaseName, config.namespace)];
      var lease: Lease;
      match r.read {
        case Found(l) =>
          lease := l;
        case ReadFailed(e) =>
          if IsNotFound(e) && config.createLeaseIfNotExist {
            calls := calls + [CreateLease(config.namespace, CreateBody(config))];
            match r.create {
              case Created(rv) =>
                lease := BareLease(config, rv);
              case CreateFailed(ce) =>
                return Failure(ce);
            }
          } else {
            return Failure(e);
          }
      }
      assert f.lease == Success(lease) && calls == old(calls) + f.calls;
      if isLocking && lease.spec.holderIdentity == config.lockLeaserId {
        isLocking := false;
      }
      if lease.spec.renewTime.GetOr(0) < r.now || lease.spec.holderIdentity == config.lockLeaserId {
        var body := PatchBody(config, lease, r.stamp);
        calls := calls + [PatchLease(config.leaseName, config.namespace, body)];
        if r.patch.PatchFailed? {
          if IsConflict(r.patch.error) {
            isLocking := false;
            return Success(false);
          }
          return Failure(r.patch.error);
        }
        isLocking := true;
        return Success(true);
      } else {
        isLocking := false;
        return Success(false);
      }
    }

    /** `getLock(waitUntilLock)` over a script of rounds, one per attempt;
        `used` is the number of rounds consumed */
    method GetLock(waitUntilLock: bool, script: seq<Round>) returns (run: Run, used: nat)
      modifies this
      ensures var a := GetLockSpec(config, old(isLocking), waitUntilLock, script, old(calls));
        run == a.run && used == a.next && isLocking == a.isLocking && calls == a.calls
      ensures keepLocking == old(keepLocking)
    {
      if script == [] {
        return Waiting, 0;
      }
      ghost var total := GetLockSpec(config, isLocking, waitUntilLock, script, calls);
      var res := Lock(script[0]);
      used := 1;
      if res.Failure? {
        return Threw(res.error), used;
      }
      var locked := res.value;
      if waitUntilLock {
        while !locked
          invariant 1 <= used <= |script|
          invariant keepLocking == old(keepLocking)
          invariant locked ==> total == Acquiring(Returned(true), isLocking, calls, used)
          invariant !locked ==> total == Retry(config, isLocking, script, used, calls + [Sleep(config.lockTryInterval)])
          decreases |script| - used
        {
          calls := calls + [Sleep(config.lockTryInterval)];
          if used == |script| {
            return Waiting, used;
          }
          ghost var o := Attempt(config, script[used]);
          assert o.result == Success(false) ==>
            total == Retry(config, false, script, used + 1, calls + o.calls + [Sleep(config.lockTryInterval)]);
          res := Lock(script[used]);
          used := used + 1;
          if res.Failure? {
            return Threw(res.error), used;
          }
          locked := res.value;
        }
      }
      return Returned(locked), used;
    }

    /** `startLocking`: wait for the lock, then set keepLocking. The renewal
        loop it schedules is `KeepLocking`, run separately. */
    method StartLocking(script: seq<Round>) returns (run: Run, used: nat)
      modifies this
      ensures var a := GetLockSpec(config, old(isLocking), true, script, old(calls));
        run == a.run && used == a.next && isLocking == a.isLocking && calls == a.calls
      ensures run.Returned? ==> run.value && isLocking && keepLocking
      ensures !run.Returned? ==> keepLocking == old(keepLocking)
    {
      run, used := GetLock(true, script);
      GetLockOutcome(config, old(isLocking), true, script, old(calls));
      if run.Returned? {
        if isLocking {
          keepLocking := true;
        } else {
          assert false;
        }
      }
    }

    /** `stopLocking`: only clears keepLocking */
    method StopLocking()
      modifies this
      ensures !keepLocking
      ensures isLocking == old(isLocking) && calls == old(calls)
    {
      keepLocking := false;
    }

    /** `_keepLocking`, with the `stopLocking` calls that interleave with it
        taken from the script; `used` is the number of iterations run */
    method KeepLocking(renewals: seq<Renewal>) returns (end: LoopEnd, used: nat)
      modifies this
      ensures var k := KeepLockingSpec(config, old(isLocking), old(keepLocking), renewals, 0, old(calls));
        && end == k.end && used == k.next && isLocking == k.isLocking
        && keepLocking == k.keepLocking && calls == k.calls
    {
      ghost var total := KeepLockingSpec(config, isLocking, keepLocking, renewals, 0, calls);
      used := 0;
      while keepLocking
        invariant used <= |renewals|
        invariant total == KeepLockingSpec(config, isLocking, keepLocking, renewals, used, calls)
        decreases |renewals| - used
      {
        if used == |renewals| {
          return Running, used;
        }
        ghost var o := Attempt(config, renewals[used].attempt);
        ghost var trace := calls + o.calls + [Sleep(config.refreshLock)];
        assert o.result.Success? ==>
          total == KeepLockingSpec(config, o.result.value, o.result.value && !renewals[used].stopped, renewals, used + 1, trace);
        var resp := Lock(renewals[used].attempt);
        if resp.Failure? {
          return Aborted(resp.error), used + 1;
        }
        assert isLocking == resp.value;
        if !resp.value {
          keepLocking := false;
        }
        calls := calls + [Sleep(config.refreshLock)];
        if renewals[used].stopped {
          StopLocking();
        }
        used := used + 1;
      }
      return Exited, used;
    }
  }
}
