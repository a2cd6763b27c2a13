/** Client scenarios on a fresh lock: what a caller can conclude from the
    contracts of `K8SLock` alone. */
module LockScenarios {
  import opened LeaseApi
  import opened LockDecision
  import opened LockLoops
  import opened K8sLock

  /** The number of patch requests among `calls` */
  function Patches(calls: seq<ApiCall>): nat {
    if calls == [] then 0
    else Patches(calls[..|calls| - 1]) + (if calls[|calls| - 1].PatchLease? then 1 else 0)
  }

  /** Counting patches over two call records in a row adds their counts. */
  lemma {:induction false} PatchesAppend(a: seq<ApiCall>, b: seq<ApiCall>)
    ensures Patches(a + b) == Patches(a) + Patches(b)
    decreases |b|
  {
    if b == [] {
      assert a + b == a;
    } else {
      var b' := b[..|b| - 1];
      assert (a + b)[..|a + b| - 1] == a + b';
      PatchesAppend(a, b');
    }
  }

  /** `startLocking` on a lease that has expired: the first attempt claims
      it, and both flags are set when the call returns. */
  method StartOnExpiredLease(opts: LockOptions, r: Round) returns (run: Run, isLocking: bool, keepLocking: bool)
    requires r.read.Found? && IsExpired(r.read.lease, r.now) && r.patch.Patched?
    ensures run == Returned(true) && isLocking && keepLocking
  {
    var lock := new K8SLock(opts);
    var used;
    run, used := lock.StartLocking([r]);
    RetryStopsAtFirstSuccess(lock.config, false, [r], 0, [], 0);
    isLocking, keepLocking := lock.isLocking, lock.keepLocking;
  }

  /** `stopLocking` right after `startLocking`: when the scheduled renewal
      loop starts, it finds keepLocking cleared, so the initial claim stays
      the only patch however the renewals would have gone. */
  method StopBeforeRenewal(opts: LockOptions, r: Round, renewals: seq<Renewal>) returns (end: LoopEnd, patches: nat)
    requires r.read.Found? && IsExpired(r.read.lease, r.now) && r.patch.Patched?
    ensures end == Exited
    ensures patches == 1
  {
    var lock := new K8SLock(opts);
    var run, used := lock.StartLocking([r]);
    ghost var claim := [ReadLease(lock.config.leaseName, lock.config.namespace),
                        PatchLease(lock.config.leaseName, lock.config.namespace, PatchBody(lock.config, r.read.lease, r.stamp))];
    assert Attempt(lock.config, r).calls == claim;
    assert lock.calls == [] + claim;
    lock.StopLocking();
    var iterations;
    end, iterations := lock.KeepLocking(renewals);
    assert lock.calls == claim == [claim[0]] + [claim[1]];
    PatchesAppend([claim[0]], [claim[1]]);
    assert [claim[0]][..0] == [] && [claim[1]][..0] == [];
    patches := Patches(lock.calls);
  }
}
