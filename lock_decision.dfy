/** The lock's configuration and one lock attempt (`_lock`): read or create
    the lease, decide from its fields, and patch it when it may be claimed. */
module LockDecision {
  import opened LeaseApi

  /** Constructor options as given; `None` is an option left undefined. */
  datatype LockOptions = LockOptions(
    leaseName: string,
    namespace: string,
    createLeaseIfNotExist: Option<bool>,
    labels: Option<Labels>,
    lockLeaserId: Option<string>,
    leaseDurationInSeconds: Option<int>,
    refreshLockInterval: Option<int>,
    lockTryInterval: Option<int>)

  /** The configuration a lock keeps; the intervals are in milliseconds. */
  datatype Config = Config(
    leaseName: string,
    namespace: string,
    createLeaseIfNotExist: bool,
    labels: Labels,
    lockLeaserId: Option<string>,
    leaseDurationInSeconds: int,
    refreshLock: int,
    lockTryInterval: int)

  const DefaultLeaseDurationInSeconds := 30

  /** An interval option falls back to its default when undefined or 0 (`x || d`). */
  predicate Falsy(x: Option<int>) {
    x == None || x == Some(0)
  }

  /** The defaults the constructor applies. A default parameter replaces only
      an undefined value; the intervals use `||`, so 0 is replaced too. */
  function Resolve(opts: LockOptions): (c: Config)
    ensures c.leaseName == opts.leaseName && c.namespace == opts.namespace
    ensures c.lockLeaserId == opts.lockLeaserId
    ensures c.createLeaseIfNotExist <==> opts.createLeaseIfNotExist != Some(false)
    ensures opts.labels.None? ==> c.labels == map[]
    ensures opts.labels.Some? ==> c.labels == opts.labels.value
    ensures opts.leaseDurationInSeconds.None? ==> c.leaseDurationInSeconds == 30
    ensures opts.leaseDurationInSeconds.Some? ==> c.leaseDurationInSeconds == opts.leaseDurationInSeconds.value
    ensures Falsy(opts.refreshLockInterval) ==> 2 * c.refreshLock == 1000 * c.leaseDurationInSeconds
    ensures !Falsy(opts.refreshLockInterval) ==> c.refreshLock == opts.refreshLockInterval.value
    ensures Falsy(opts.lockTryInterval) ==> c.lockTryInterval == 1000 * c.leaseDurationInSeconds
    ensures !Falsy(opts.lockTryInterval) ==> c.lockTryInterval == opts.lockTryInterval.value
  {
    var duration := opts.leaseDurationInSeconds.GetOr(DefaultLeaseDurationInSeconds);
    Config(
      opts.leaseName,
      opts.namespace,
      opts.createLeaseIfNotExist.GetOr(true),
      opts.labels.GetOr(map[]),
      opts.lockLeaserId,
      duration,
      if Falsy(opts.refreshLockInterval) then (duration * 1000) / 2 else opts.refreshLockInterval.value,
      if Falsy(opts.lockTryInterval) then duration * 1000 else opts.lockTryInterval.value)
  }

  /** The body of the create request: name and labels, empty spec */
  function CreateBody(cfg: Config): Lease {
    Lease(Meta(Some(cfg.leaseName), Some(cfg.labels), None), EmptySpec)
  }

  /** The lease the server holds right after creating `CreateBody(cfg)` */
  function BareLease(cfg: Config, resourceVersion: string): Lease {
    Lease(Meta(Some(cfg.leaseName), Some(cfg.labels), Some(resourceVersion)), EmptySpec)
  }

  /** Expired: `renewTime` (the epoch when absent) is earlier than now */
  predicate IsExpired(lease: Lease, now: int) {
    lease.spec.renewTime.GetOr(0) < now
  }

  /** Self-held: the holder is this lock's id; two undefined values are equal */
  predicate IsHeldBy(lease: Lease, cfg: Config) {
    lease.spec.holderIdentity == cfg.lockLeaserId
  }

  predicate MayClaim(cfg: Config, lease: Lease, now: int) {
    IsExpired(lease, now) || IsHeldBy(lease, cfg)
  }

  /** The merge-patch body that claims or renews `lease` at time `stamp`:
      it is guarded by the resourceVersion just read, and it touches the
      transition counter and acquireTime only when the holder changes. */
  function PatchBody(cfg: Config, lease: Lease, stamp: int): (body: Lease)
    ensures body.metadata.resourceVersion == lease.metadata.resourceVersion
    ensures body.metadata.labels == Some(cfg.labels)
    // a lock without an id names no holder, so the stored holder is kept
    ensures cfg.lockLeaserId.None? ==> body.spec.holderIdentity.None?
    ensures var after := MergeSpec(lease.spec, body.spec);
      && (cfg.lockLeaserId.Some? ==> after.holderIdentity == cfg.lockLeaserId)
      && after.leaseDurationSeconds == Some(cfg.leaseDurationInSeconds)
      && after.renewTime == Some(stamp + cfg.leaseDurationInSeconds * 1000)
    ensures IsHeldBy(lease, cfg) ==>
      && body.spec.leaseTransitions.None? && body.spec.acquireTime.None?
      && MergeSpec(lease.spec, body.spec).leaseTransitions == lease.spec.leaseTransitions
      && MergeSpec(lease.spec, body.spec).acquireTime == lease.spec.acquireTime
    ensures !IsHeldBy(lease, cfg) ==>
      && MergeSpec(lease.spec, body.spec).leaseTransitions == Some(lease.spec.leaseTransitions.GetOr(0) + 1)
      && MergeSpec(lease.spec, body.spec).acquireTime == Some(stamp)
  {
    var transition := !IsHeldBy(lease, cfg);
    Lease(
      Meta(None, Some(cfg.labels), lease.metadata.resourceVersion),
      Spec(
        cfg.lockLeaserId,
        Some(cfg.leaseDurationInSeconds),
        if transition then Some(stamp) else None,
        Some(stamp + cfg.leaseDurationInSeconds * 1000),
        if transition then Some(lease.spec.leaseTransitions.GetOr(0) + 1) else None))
  }

  /** The first phase of an attempt: the lease read, or created when missing */
  datatype Fetched = Fetched(lease: Result<Lease>, calls: seq<ApiCall>)

  function Fetch(cfg: Config, r: Round): (f: Fetched)
    ensures |f.calls| >= 1 && f.calls[0] == ReadLease(cfg.leaseName, cfg.namespace)
    ensures r.read.Found? ==> f == Fetched(Success(r.read.lease), [f.calls[0]])
    // a missing lease without auto-create, and every other read error, is thrown as read
    ensures r.read.ReadFailed? && !(IsNotFound(r.read.error) && cfg.createLeaseIfNotExist) ==>
      f == Fetched(Failure(r.read.error), [f.calls[0]])
    // a missing lease with auto-create: exactly one create, of a bare lease
    ensures r.read.ReadFailed? && IsNotFound(r.read.error) && cfg.createLeaseIfNotExist ==>
      && f.calls == [f.calls[0], CreateLease(cfg.namespace, CreateBody(cfg))]
      && (r.create.CreateFailed? ==> f.lease == Failure(r.create.error))
      && (r.create.Created? ==> f.lease.Success? && f.lease.value.spec == EmptySpec
                                && f.lease.value.metadata.labels == Some(cfg.labels))
  {
    var read := ReadLease(cfg.leaseName, cfg.namespace);
    match r.read
    case Found(lease) => Fetched(Success(lease), [read])
    case ReadFailed(e) =>
      if IsNotFound(e) && cfg.createLeaseIfNotExist then
        var calls := [read, CreateLease(cfg.namespace, CreateBody(cfg))];
        match r.create
        case Created(rv) => Fetched(Success(BareLease(cfg, rv)), calls)
        case CreateFailed(ce) => Fetched(Failure(ce), calls)
      else
        Fetched(Failure(e), [read])
  }

  /** What an attempt returns or throws, the calls it made, and whether the
      lease it decided on named this lock as holder. The result and the calls
      do not depend on the lock's isLocking; only the flag it leaves does. */
  datatype Outcome = Outcome(result: Result<bool>, calls: seq<ApiCall>, heldBySelf: bool)

  /** The isLocking an attempt leaves: the result when it returns. When it
      throws, isLocking keeps its value, except that it was cleared first if
      the lease read named this lock as holder. */
  function LockingAfter(wasLocking: bool, o: Outcome): bool {
    match o.result
    case Success(locked) => locked
    case Failure(_) => wasLocking && !o.heldBySelf
  }

  /** The second phase: decide from the lease and, if it may be claimed,
      send one patch and react to its answer. */
  function Decide(cfg: Config, lease: Lease, r: Round): (d: Outcome)
    ensures d.heldBySelf == IsHeldBy(lease, cfg)
    // busy: a live lease held by someone else is left alone
    ensures !MayClaim(cfg, lease, r.now) ==> d.result == Success(false) && d.calls == []
    // expired or self-held: exactly one patch, with the claiming body
    ensures MayClaim(cfg, lease, r.now) ==>
      d.calls == [PatchLease(cfg.leaseName, cfg.namespace, PatchBody(cfg, lease, r.stamp))]
    ensures MayClaim(cfg, lease, r.now) && r.patch.Patched? ==> d.result == Success(true)
    // a conflict is a normal `false`; any other patch error is thrown
    ensures MayClaim(cfg, lease, r.now) && r.patch.PatchFailed? ==>
      d.result == if IsConflict(r.patch.error) then Success(false) else Failure(r.patch.error)
  {
    var held := IsHeldBy(lease, cfg);
    if MayClaim(cfg, lease, r.now) then
      var patch := PatchLease(cfg.leaseName, cfg.namespace, PatchBody(cfg, lease, r.stamp));
      match r.patch
      case Patched => Outcome(Success(true), [patch], held)
      case PatchFailed(e) =>
        if IsConflict(e) then Outcome(Success(false), [patch], held)
        else Outcome(Failure(e), [patch], held)
    else
      Outcome(Success(false), [], held)
  }

  /** One call of `_lock` */
  function Attempt(cfg: Config, r: Round): (o: Outcome)
    ensures |o.calls| >= 1 && o.calls[0] == ReadLease(cfg.leaseName, cfg.namespace)
    // an error while reading or creating is thrown with no patch, and leaves isLocking alone
    ensures Fetch(cfg, r).lease.Failure? ==>
      o == Outcome(Failure(Fetch(cfg, r).lease.error), Fetch(cfg, r).calls, false)
    // a claim is a patch, and it is the last call; a self-held lease is always patched
    ensures o.result == Success(true) || o.heldBySelf ==> o.calls[|o.calls| - 1].PatchLease?
    ensures forall i :: 0 <= i < |o.calls| - 1 ==> !o.calls[i].PatchLease?
  {
    var f := Fetch(cfg, r);
    match f.lease
    case Failure(e) => Outcome(Failure(e), f.calls, false)
    case Success(lease) =>
      var d := Decide(cfg, lease, r);
      Outcome(d.result, f.calls + d.calls, d.heldBySelf)
  }

  /** A missing lease that is auto-created has no renewTime, so with any
      clock reading after the epoch it is claimed at once. */
  lemma CreatedLeaseIsClaimed(cfg: Config, r: Round)
    requires r.read.ReadFailed? && IsNotFound(r.read.error) && cfg.createLeaseIfNotExist
    requires r.create.Created? && r.now > 0
    ensures Attempt(cfg, r).calls ==
      [ ReadLease(cfg.leaseName, cfg.namespace),
        CreateLease(cfg.namespace, CreateBody(cfg)),
        PatchLease(cfg.leaseName, cfg.namespace, PatchBody(cfg, BareLease(cfg, r.create.resourceVersion), r.stamp)) ]
  {
  }
}
