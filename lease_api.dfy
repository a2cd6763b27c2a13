/** Kubernetes `coordination.k8s.io/v1` Lease objects as the lock sees them,
    the requests it sends to the API server, and the scripted answers the
    API server and the clock give to one lock attempt. */
module LeaseApi {

  datatype Option<T> = None | Some(value: T) {
    /** The value, or `d` when undefined (a default parameter, or `x || d`
        where the present value is never falsy) */
    function GetOr(d: T): T {
      match this
      case Some(v) => v
      case None => d
    }
  }

  /** An error raised by the Kubernetes client; `code` is the HTTP status it
      carries, if any (the code tests it with `e?.code`). */
  datatype ApiError = ApiError(code: Option<int>)

  const NotFoundCode := 404
  const ConflictCode := 409

  predicate IsNotFound(e: ApiError) { e.code == Some(NotFoundCode) }
  predicate IsConflict(e: ApiError) { e.code == Some(ConflictCode) }

  /** A value returned normally, or an error thrown */
  datatype Result<T> = Success(value: T) | Failure(error: ApiError)

  type Labels = map<string, string>

  /** `metadata`; an absent field is one the JSON object does not carry */
  datatype Meta = Meta(name: Option<string>, labels: Option<Labels>, resourceVersion: Option<string>)

  /** `spec` of a Lease; times are integer milliseconds since the epoch */
  datatype Spec = Spec(
    holderIdentity: Option<string>,
    leaseDurationSeconds: Option<int>,
    acquireTime: Option<int>,
    renewTime: Option<int>,
    leaseTransitions: Option<int>)

  const EmptySpec := Spec(None, None, None, None, None)

  /** A Lease object, and equally a request body of the same shape */
  datatype Lease = Lease(metadata: Meta, spec: Spec)

  /** What the lock sends or waits for, in order */
  datatype ApiCall =
    | ReadLease(name: string, namespace: string)
    | CreateLease(namespace: string, body: Lease)
    | PatchLease(name: string, namespace: string, body: Lease)
    | Sleep(ms: int)

  /** The answer to `readNamespacedLease` */
  datatype ReadOutcome = Found(lease: Lease) | ReadFailed(error: ApiError)

  /** The answer to `createNamespacedLease`: the server stores the body it was
      sent and gives it a fresh resourceVersion */
  datatype CreateOutcome = Created(resourceVersion: string) | CreateFailed(error: ApiError)

  /** The answer to `patchNamespacedLease` */
  datatype PatchOutcome = Patched | PatchFailed(error: ApiError)

  /** Everything the world answers during one `_lock` call: the three API
      answers (each consulted only if that request is sent) and the two clock
      readings, `now` for the expiry test and `stamp` for the new times. */
  datatype Round = Round(read: ReadOutcome, create: CreateOutcome, now: int, stamp: int, patch: PatchOutcome)

  /** Strategic-merge-patch of a Lease spec on the server: each field the
      body carries replaces the stored one; the others are left as they are. */
  function MergeField<T>(stored: Option<T>, patch: Option<T>): Option<T> {
    if patch.Some? then patch else stored
  }

  function MergeSpec(stored: Spec, patch: Spec): Spec {
    Spec(
      MergeField(stored.holderIdentity, patch.holderIdentity),
      MergeField(stored.leaseDurationSeconds, patch.leaseDurationSeconds),
      MergeField(stored.acquireTime, patch.acquireTime),
      MergeField(stored.renewTime, patch.renewTime),
      MergeField(stored.leaseTransitions, patch.leaseTransitions))
  }
}
