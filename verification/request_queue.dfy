/**
 * The bounded, persisted queue of pending server requests (`ServerRequestQueue`).
 *
 * The queue is a value: every operation takes the current list and the stored
 * preferences entry and returns the new ones, as one atomic step (the Java
 * code serialises all of them under one lock).  Every Java exception the
 * operations swallow becomes a total case of the function.
 */
module RequestQueue {
  import opened Wrappers
  import opened Json
  import opened Requests

  /** `MAX_ITEMS`: the eviction threshold of `enqueue` and the read bound of `retrieve`. */
  const MaxItems: nat := 25

  /**
   * The preferences entry under `PREF_KEY`: never written, a string that does
   * not parse as a JSON array, or the parsed array.
   */
  datatype Stored = NotStored | Unparseable | Entries(items: seq<JsonValue>)

  /** The in-memory list and the stored entry it is persisted to. */
  datatype Queue = Queue(slots: seq<Slot>, stored: Stored)

  function Min(a: int, b: int): int {
    if a <= b then a else b
  }

  /** The list without position `i`. */
  function RemoveIndex<T>(s: seq<T>, i: nat): seq<T>
    requires i < |s|
  {
    s[..i] + s[i + 1..]
  }

  predicate NoNulls(slots: seq<Slot>) {
    forall i :: 0 <= i < |slots| ==> slots[i].Some?
  }

  // ---------------------------------------------------------------------------
  // Persistence
  // ---------------------------------------------------------------------------

  /** A request that `persist` writes: persistable, with a non-null `toJSON`. */
  predicate Persisted(r: Request) {
    IsPersistable(r) && r.serialized.Some?
  }

  /**
   * The requests `persist` writes, in queue order.  A null slot makes the loop
   * throw before anything is written, so there is then no snapshot at all.
   */
  function Snapshot(slots: seq<Slot>): (snap: Option<seq<Request>>)
    ensures snap.Some? <==> NoNulls(slots)
    ensures snap.Some? ==> |snap.value| <= |slots|
    ensures snap.Some? ==> forall r :: r in snap.value <==> Some(r) in slots && Persisted(r)
    ensures snap.Some? ==> forall i :: 0 <= i < |snap.value| ==> Persisted(snap.value[i])
    decreases |slots|
  {
    if |slots| == 0 then Some([])
    else
      assert forall r :: Some(r) in slots <==> slots[0] == Some(r) || Some(r) in slots[1..];
      match slots[0]
      case None => None
      case Some(r) =>
        match Snapshot(slots[1..])
        case None => None
        case Some(rest) => Some(if Persisted(r) then [r] + rest else rest)
  }

  /** The JSON array `persist` builds from the snapshot. */
  function Encode(rs: seq<Request>): (items: seq<JsonValue>)
    requires forall i :: 0 <= i < |rs| ==> rs[i].serialized.Some?
    ensures |items| == |rs|
    ensures forall i :: 0 <= i < |rs| ==> items[i] == JObject(rs[i].serialized.value)
  {
    seq(|rs|, i requires 0 <= i < |rs| => JObject(rs[i].serialized.value))
  }

  /**
   * `persist()`: the stored entry after writing the list.  When the snapshot
   * fails the exception is swallowed and the previous entry stays.
   */
  function Persist(slots: seq<Slot>, previous: Stored): (stored: Stored)
    ensures !NoNulls(slots) ==> stored == previous
    ensures NoNulls(slots) ==> stored.Entries? && |stored.items| <= |slots|
    ensures NoNulls(slots) ==> forall i :: 0 <= i < |stored.items| ==>
      stored.items[i].JObject? &&
      exists r :: Some(r) in slots && Persisted(r) && stored.items[i] == JObject(r.serialized.value)
    ensures NoNulls(slots) ==>
      && |stored.items| == |Snapshot(slots).value|
      && forall i :: 0 <= i < |stored.items| ==> stored.items[i] == JObject(Snapshot(slots).value[i].serialized.value)
  {
    match Snapshot(slots)
    case None => previous
    case Some(rs) =>
      assert forall i :: 0 <= i < |rs| ==> rs[i] in rs;
      Entries(Encode(rs))
  }

  /**
   * The loop of `retrieve` over the (already bounded) array: entries whose
   * `fromJSON` is null are skipped, and the first entry that is not a JSON
   * object throws, which ends the loop with what was read so far.
   */
  function Decode(items: seq<JsonValue>, fromJson: Object -> Option<Request>): (rs: seq<Request>)
    ensures |rs| <= |items|
    ensures forall r :: r in rs ==>
      exists i :: 0 <= i < |items| && items[i].JObject? && fromJson(items[i].fields) == Some(r)
    ensures 0 < |items| && !items[0].JObject? ==> rs == []
    ensures Readable(items, fromJson) ==>
      |rs| == |items| && forall i :: 0 <= i < |items| ==> Some(rs[i]) == fromJson(items[i].fields)
    decreases |items|
  {
    if |items| == 0 then []
    else match items[0]
      case JObject(o) =>
        var rest := Decode(items[1..], fromJson);
        SourcesOfTail(items, rest, fromJson);
        ReadableTail(items, fromJson);
        (match fromJson(o)
         case Some(r) => [r]
         case None => []) + rest
      case _ => []
  }

  /** One step of `Snapshot` on a list without nulls. */
  lemma SnapshotCons(slots: seq<Slot>)
    requires 0 < |slots| && NoNulls(slots)
    ensures Snapshot(slots).Some? && Snapshot(slots[1..]).Some?
    ensures Snapshot(slots).value ==
      (if Persisted(slots[0].value) then [slots[0].value] else []) + Snapshot(slots[1..]).value
  {
    assert NoNulls(slots[1..]) by {
      assert forall i :: 0 <= i < |slots[1..]| ==> slots[1..][i] == slots[i + 1];
    }
  }

  /** One step of `Decode` at an object entry. */
  lemma DecodeCons(items: seq<JsonValue>, fromJson: Object -> Option<Request>)
    requires 0 < |items| && items[0].JObject?
    ensures Decode(items, fromJson) ==
      (if fromJson(items[0].fields).Some? then [fromJson(items[0].fields).value] else []) + Decode(items[1..], fromJson)
  {
  }

  /** A request read from the tail of the array was read from the array. */
  lemma SourcesOfTail(items: seq<JsonValue>, rest: seq<Request>, fromJson: Object -> Option<Request>)
    requires 0 < |items|
    requires forall r :: r in rest ==>
      exists j :: 0 <= j < |items[1..]| && items[1..][j].JObject? && fromJson(items[1..][j].fields) == Some(r)
    ensures forall r :: r in rest ==>
      exists i :: 0 <= i < |items| && items[i].JObject? && fromJson(items[i].fields) == Some(r)
  {
    forall r | r in rest
      ensures exists i :: 0 <= i < |items| && items[i].JObject? && fromJson(items[i].fields) == Some(r)
    {
      var j :| 0 <= j < |items[1..]| && items[1..][j].JObject? && fromJson(items[1..][j].fields) == Some(r);
      assert items[j + 1] == items[1..][j];
    }
  }

  lemma ReadableTail(items: seq<JsonValue>, fromJson: Object -> Option<Request>)
    requires 0 < |items|
    ensures Readable(items, fromJson) ==> Readable(items[1..], fromJson)
  {
    assert forall i :: 0 <= i < |items[1..]| ==> items[1..][i] == items[i + 1];
  }

  /** Every entry is an object that `fromJSON` turns into a request. */
  predicate Readable(items: seq<JsonValue>, fromJson: Object -> Option<Request>) {
    forall i :: 0 <= i < |items| ==> items[i].JObject? && fromJson(items[i].fields).Some?
  }

  /** `retrieve`: reads at most `MaxItems` entries of the stored array. */
  function Retrieve(stored: Stored, fromJson: Object -> Option<Request>): (rs: seq<Request>)
    ensures |rs| <= MaxItems
    ensures !stored.Entries? ==> rs == []
    ensures stored.Entries? ==> forall r :: r in rs ==>
      exists i :: 0 <= i < Min(|stored.items|, MaxItems) && stored.items[i].JObject? &&
                  fromJson(stored.items[i].fields) == Some(r)
    ensures stored.Entries? ==> rs == Decode(stored.items[..Min(|stored.items|, MaxItems)], fromJson)
  {
    match stored
    case Entries(items) =>
      var bounded := items[..Min(|items|, MaxItems)];
      var rs := Decode(bounded, fromJson);
      assert forall i :: 0 <= i < |bounded| ==> bounded[i] == items[i];
      rs
    case _ => []
  }

  /** The queue the constructor builds from the stored entry. */
  function Hydrate(stored: Stored, fromJson: Object -> Option<Request>): (q: Queue)
    ensures q.stored == stored
    ensures NoNulls(q.slots) && |q.slots| <= MaxItems
    ensures forall i :: 0 <= i < |q.slots| ==> q.slots[i].value in Retrieve(stored, fromJson)
    ensures |q.slots| == |Retrieve(stored, fromJson)|
    ensures forall i :: 0 <= i < |q.slots| ==> q.slots[i] == Some(Retrieve(stored, fromJson)[i])
  {
    var rs := Retrieve(stored, fromJson);
    Queue(seq(|rs|, i requires 0 <= i < |rs| => Some(rs[i])), stored)
  }

  // ---------------------------------------------------------------------------
  // Reads
  // ---------------------------------------------------------------------------

  /** `peekAt(index)`: the element at a valid index, absent otherwise (and for a null slot). */
  function PeekAt(q: Queue, index: int): (r: Option<Request>)
    ensures r.Some? <==> 0 <= index < |q.slots| && q.slots[index].Some?
    ensures r.Some? ==> q.slots[index] == r
  {
    if 0 <= index < |q.slots| then q.slots[index] else None
  }

  /** `peek()`: the head, absent for an empty queue. */
  function Peek(q: Queue): (r: Option<Request>)
    ensures |q.slots| == 0 ==> r.None?
    ensures |q.slots| > 0 ==> r == q.slots[0]
  {
    PeekAt(q, 0)
  }

  predicate IsSelfInit(s: Slot) {
    s.Some? && s.value.kind.InitSession? && s.value.kind.initiatedByClient
  }

  /** `getSelfInitRequest()`: the first client-initiated session-init request. */
  function SelfInitRequest(slots: seq<Slot>): (r: Option<Request>)
    ensures r.Some? <==> exists i :: 0 <= i < |slots| && IsSelfInit(slots[i])
    ensures r.Some? ==> exists i :: 0 <= i < |slots| && slots[i] == r && IsSelfInit(slots[i]) &&
                                    forall j :: 0 <= j < i ==> !IsSelfInit(slots[j])
    decreases |slots|
  {
    if |slots| == 0 then None
    else if IsSelfInit(slots[0]) then slots[0]
    else
      var r := SelfInitRequest(slots[1..]);
      assert forall i :: 0 < i < |slots| ==> slots[i] == slots[1..][i - 1];
      assert r.Some? ==> exists i :: 0 <= i < |slots[1..]| && IsSelfInit(slots[1..][i]);
      r
  }

  // ---------------------------------------------------------------------------
  // Mutations
  // ---------------------------------------------------------------------------

  /**
   * `enqueue(request)`: appends; when the list has then reached `MaxItems`
   * the element at index 1 (never the head) is evicted; then persists.
   * A null request changes nothing.
   */
  function Enqueue(q: Queue, request: Slot): (q': Queue)
    ensures request.None? ==> q' == q
    ensures request.Some? ==> 0 < |q'.slots| && q'.slots[|q'.slots| - 1] == request
    ensures request.Some? ==> |q'.slots| == if |q.slots| + 1 >= MaxItems then |q.slots| else |q.slots| + 1
    ensures request.Some? && |q.slots| + 1 < MaxItems ==> q'.slots[..|q.slots|] == q.slots
    ensures request.Some? && |q.slots| + 1 >= MaxItems ==>
      q'.slots[..|q.slots| - 1] == RemoveIndex(q.slots, 1)
    ensures request.Some? && |q.slots| > 0 ==> q'.slots[0] == q.slots[0]
    ensures request.Some? ==> q'.stored == Persist(q'.slots, q.stored)
  {
    match request
    case None => q
    case Some(_) =>
      var added := q.slots + [request];
      var slots := if |added| >= MaxItems then RemoveIndex(added, 1) else added;
      assert |added| >= MaxItems ==> slots[..|q.slots| - 1] == RemoveIndex(q.slots, 1);
      Queue(slots, Persist(slots, q.stored))
  }

  /**
   * `insert(request, index)`: an index past the end is clamped to the end; a
   * negative index throws before anything changes.  No capacity bound applies,
   * and a null request is stored as a null slot.
   */
  function Insert(q: Queue, request: Slot, index: int): (q': Queue)
    ensures index < 0 ==> q' == q
    ensures index >= 0 ==>
      var at := Min(index, |q.slots|);
      && |q'.slots| == |q.slots| + 1
      && q'.slots[at] == request
      && q'.slots[..at] == q.slots[..at]
      && q'.slots[at + 1..] == q.slots[at..]
      && q'.stored == Persist(q'.slots, q.stored)
  {
    if index < 0 then q
    else
      var at := Min(index, |q.slots|);
      var slots := q.slots[..at] + [request] + q.slots[at..];
      assert slots[at + 1..] == q.slots[at..];
      Queue(slots, Persist(slots, q.stored))
  }

  /**
   * `removeAt(index)`: at a valid index, deletes that element, keeps the order
   * of the rest, persists and returns the element; otherwise changes nothing.
   */
  function RemoveAt(q: Queue, index: int): (res: (Queue, Option<Request>))
    ensures !(0 <= index < |q.slots|) ==> res == (q, None)
    ensures 0 <= index < |q.slots| ==>
      && res.1 == q.slots[index]
      && |res.0.slots| == |q.slots| - 1
      && (forall j :: 0 <= j < index ==> res.0.slots[j] == q.slots[j])
      && (forall j :: index <= j < |res.0.slots| ==> res.0.slots[j] == q.slots[j + 1])
      && res.0.stored == Persist(res.0.slots, q.stored)
  {
    if 0 <= index < |q.slots| then
      var slots := RemoveIndex(q.slots, index);
      (Queue(slots, Persist(slots, q.stored)), q.slots[index])
    else (q, None)
  }

  /** The position of the first element `List.remove(Object)` would match. */
  function FirstIndex(slots: seq<Slot>, x: Slot): (k: Option<nat>)
    ensures k.Some? ==> k.value < |slots| && SameObject(slots[k.value], x) &&
                        forall j :: 0 <= j < k.value ==> !SameObject(slots[j], x)
    ensures k.None? ==> forall j :: 0 <= j < |slots| ==> !SameObject(slots[j], x)
    decreases |slots|
  {
    if |slots| == 0 then None
    else if SameObject(slots[0], x) then Some(0)
    else
      var k := FirstIndex(slots[1..], x);
      assert forall j :: 0 < j < |slots| ==> slots[j] == slots[1..][j - 1];
      match k
      case None => None
      case Some(i) => Some(i + 1)
  }

  /**
   * `remove(request)`: deletes the first element that is the same object and
   * reports whether there was one.  The list is persisted either way.
   */
  function Remove(q: Queue, request: Slot): (res: (Queue, bool))
    ensures res.1 <==> exists j :: 0 <= j < |q.slots| && SameObject(q.slots[j], request)
    ensures !res.1 ==> res.0.slots == q.slots
    ensures res.1 ==>
      exists k :: 0 <= k < |q.slots| && SameObject(q.slots[k], request) &&
                  (forall j :: 0 <= j < k ==> !SameObject(q.slots[j], request)) &&
                  res.0.slots == RemoveIndex(q.slots, k)
    ensures res.0.stored == Persist(res.0.slots, q.stored)
  {
    match FirstIndex(q.slots, request)
    case None => (Queue(q.slots, Persist(q.slots, q.stored)), false)
    case Some(k) =>
      var slots := RemoveIndex(q.slots, k);
      (Queue(slots, Persist(slots, q.stored)), true)
  }

  /** `clear()`: empties the list and persists the empty array. */
  function Clear(q: Queue): (q': Queue)
    ensures |q'.slots| == 0
    ensures q'.stored == Entries([])
  {
    Queue([], Persist([], q.stored))
  }

  /**
   * `unlockProcessWait(lock)`: removes `lock` from every request's lock set.
   * Nothing is persisted.
   */
  function UnlockProcessWait(q: Queue, lock: Lock): (q': Queue)
    ensures q'.stored == q.stored
    ensures |q'.slots| == |q.slots|
    ensures forall i :: 0 <= i < |q.slots| ==> (q'.slots[i].Some? <==> q.slots[i].Some?)
    ensures forall i :: 0 <= i < |q.slots| && q.slots[i].Some? ==>
      && q'.slots[i].value.locks == q.slots[i].value.locks - {lock}
      && q'.slots[i].value.(locks := q.slots[i].value.locks) == q.slots[i].value
  {
    var slots := seq(|q.slots|, i requires 0 <= i < |q.slots| =>
      match q.slots[i]
      case None => None
      case Some(r) => Some(RemoveProcessWaitLock(r, lock)));
    Queue(slots, q.stored)
  }

  /**
   * `setStrongMatchWaitLock()`: adds the strong-match lock to every
   * session-init request and to no other.  Nothing is persisted.
   */
  function SetStrongMatchWaitLock(q: Queue): (q': Queue)
    ensures q'.stored == q.stored
    ensures |q'.slots| == |q.slots|
    ensures forall i :: 0 <= i < |q.slots| ==> (q'.slots[i].Some? <==> q.slots[i].Some?)
    ensures forall i :: 0 <= i < |q.slots| && q.slots[i].Some? ==>
      && (q.slots[i].value.kind.InitSession? ==>
            q'.slots[i].value.locks == q.slots[i].value.locks + {StrongMatchPendingWaitLock})
      && (!q.slots[i].value.kind.InitSession? ==> q'.slots[i] == q.slots[i])
      && q'.slots[i].value.(locks := q.slots[i].value.locks) == q.slots[i].value
  {
    var slots := seq(|q.slots|, i requires 0 <= i < |q.slots| =>
      match q.slots[i]
      case None => None
      case Some(r) =>
        if r.kind.InitSession? then Some(AddProcessWaitLock(r, StrongMatchPendingWaitLock)) else Some(r));
    Queue(slots, q.stored)
  }
}
