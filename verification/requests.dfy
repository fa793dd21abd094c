/**
 * A queued server request.  The `ServerRequest` class hierarchy is flattened
 * into one record with a variant tag; the per-class overrides the queue relies
 * on (`isPersistable`, `isGetRequest`) dispatch on that tag.
 */
module Requests {
  import opened Wrappers
  import opened Json

  /** A process wait lock; the queue itself only ever names the strong-match one. */
  datatype Lock = StrongMatchPendingWaitLock | OtherWaitLock(name: string)

  /** The request's class, as far as the queue distinguishes classes. */
  datatype Kind =
    | InitSession(initiatedByClient: bool)
    | RegisterClose
    | OtherRequest

  /**
   * `id` stands for the Java object's identity (requests are compared with the
   * default `equals`); `persistable` and `getRequest` are what the request's
   * own class answers when it does not override those methods; `serialized`
   * is the opaque result of `toJSON`, absent when it returns null.
   */
  datatype Request = Request(
    id: nat,
    kind: Kind,
    locks: set<Lock>,
    persistable: bool,
    getRequest: bool,
    post: Object,
    serialized: Option<Object>)

  /** `isPersistable()`: a close request is never persisted, whatever its flag says. */
  function IsPersistable(r: Request): (p: bool)
    ensures r.kind.RegisterClose? ==> !p
    ensures !r.kind.RegisterClose? ==> (p <==> r.persistable)
  {
    match r.kind
    case RegisterClose => false
    case _ => r.persistable
  }

  /** `isGetRequest()`: a close request is always sent as a POST. */
  function IsGetRequest(r: Request): (g: bool)
    ensures r.kind.RegisterClose? ==> !g
    ensures !r.kind.RegisterClose? ==> (g <==> r.getRequest)
  {
    match r.kind
    case RegisterClose => false
    case _ => r.getRequest
  }

  /** `addProcessWaitLock`: inserts into the lock set, nothing else changes. */
  function AddProcessWaitLock(r: Request, lock: Lock): (r': Request)
    ensures lock in r'.locks
    ensures r'.locks - {lock} == r.locks - {lock}
    ensures r'.(locks := r.locks) == r
  {
    r.(locks := r.locks + {lock})
  }

  /** `removeProcessWaitLock`: deletes from the lock set, nothing else changes. */
  function RemoveProcessWaitLock(r: Request, lock: Lock): (r': Request)
    ensures lock !in r'.locks
    ensures r'.locks + {lock} == r.locks + {lock}
    ensures r'.(locks := r.locks) == r
  {
    r.(locks := r.locks - {lock})
  }

  /** A request may be dispatched once every lock it waits on has been cleared. */
  predicate Eligible(r: Request) {
    r.locks == {}
  }

  /** A list slot: Java lists may hold null. */
  type Slot = Option<Request>

  /**
   * Two requests alike in everything but identity. `fromJSON` always builds a
   * new object, so this is the most a rebuilt request can share with the
   * request that was written.
   */
  predicate SameRequest(a: Request, b: Request) {
    a.(id := b.id) == b
  }

  /** `Object.equals` as `List.remove(Object)` applies it: null matches null, otherwise identity. */
  predicate SameObject(a: Slot, b: Slot) {
    match (a, b)
    case (None, None) => true
    case (Some(x), Some(y)) => x.id == y.id
    case _ => false
  }
}
