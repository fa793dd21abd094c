/**
 * Properties that relate several queue operations: the capacity bound over
 * any run of enqueues, inverse pairs, the effect of the lock broadcasts, and
 * the persist/retrieve round trip across a process restart.
 */
module QueueLaws {
  import opened Wrappers
  import opened Json
  import opened Requests
  import opened RequestQueue

  // ---------------------------------------------------------------------------
  // Capacity
  // ---------------------------------------------------------------------------

  /** The queue after enqueuing each of `rs` in turn. */
  function EnqueueAll(q: Queue, rs: seq<Slot>): Queue
    decreases |rs|
  {
    if |rs| == 0 then q else EnqueueAll(Enqueue(q, rs[0]), rs[1..])
  }

  /**
   * However many requests are enqueued, a queue that starts within capacity
   * stays within it, and its head is never evicted.
   */
  lemma {:induction false} EnqueueAllBounded(q: Queue, rs: seq<Slot>)
    requires |q.slots| <= MaxItems
    ensures |q.slots| <= |EnqueueAll(q, rs).slots| <= MaxItems
    ensures |q.slots| > 0 ==> EnqueueAll(q, rs).slots[0] == q.slots[0]
    decreases |rs|
  {
    if |rs| > 0 {
      EnqueueAllBounded(Enqueue(q, rs[0]), rs[1..]);
    }
  }

  /** Enqueuing brings in no request other than the one enqueued. */
  lemma EnqueueAddsOnlyItsRequest(q: Queue, x: Slot)
    ensures forall s :: s in Enqueue(q, x).slots ==> s in q.slots || s == x
  {
    var q1 := Enqueue(q, x);
    forall i | 0 <= i < |q1.slots|
      ensures q1.slots[i] in q.slots || q1.slots[i] == x
    {
      if x.None? || i == |q1.slots| - 1 {
      } else if |q.slots| + 1 >= MaxItems {
        assert q1.slots[i] == q1.slots[..|q.slots| - 1][i];
        assert q1.slots[i] in RemoveIndex(q.slots, 1);
      } else {
        assert q1.slots[i] == q1.slots[..|q.slots|][i];
      }
    }
  }

  /** Below capacity, enqueuing is inserting at the end. */
  lemma EnqueueIsInsertAtEnd(q: Queue, r: Request)
    requires |q.slots| + 1 < MaxItems
    ensures Enqueue(q, Some(r)) == Insert(q, Some(r), |q.slots|)
  {
    assert q.slots[..|q.slots|] + [Some(r)] + q.slots[|q.slots|..] == q.slots + [Some(r)];
  }

  // ---------------------------------------------------------------------------
  // Inverse pairs
  // ---------------------------------------------------------------------------

  /** Removing at the (clamped) position just inserted at gives the element and the old list back. */
  lemma InsertThenRemoveAt(q: Queue, x: Slot, index: int)
    requires index >= 0
    ensures var res := RemoveAt(Insert(q, x, index), Min(index, |q.slots|));
            res.0.slots == q.slots && res.1 == x
  {
    var at := Min(index, |q.slots|);
    var q1 := Insert(q, x, index);
    var res := RemoveAt(q1, at);
    assert res.0.slots == q1.slots[..at] + q1.slots[at + 1..];
    assert q.slots == q.slots[..at] + q.slots[at..];
  }

  /** Removing a request just enqueued (below capacity, not already queued) restores the list. */
  lemma EnqueueThenRemove(q: Queue, r: Request)
    requires |q.slots| + 1 < MaxItems
    requires forall j :: 0 <= j < |q.slots| ==> !SameObject(q.slots[j], Some(r))
    ensures var res := Remove(Enqueue(q, Some(r)), Some(r));
            res.0.slots == q.slots && res.1
  {
    var q1 := Enqueue(q, Some(r));
    assert q1.slots == q.slots + [Some(r)];
    var res := Remove(q1, Some(r));
    var k :| 0 <= k < |q1.slots| && SameObject(q1.slots[k], Some(r)) &&
             (forall j :: 0 <= j < k ==> !SameObject(q1.slots[j], Some(r))) &&
             res.0.slots == RemoveIndex(q1.slots, k);
    assert k == |q.slots|;
  }

  /** After `clear()` nothing is queued, nothing is pending init, and a restart restores nothing. */
  lemma ClearEmpties(q: Queue, fromJson: Object -> Option<Request>)
    ensures Peek(Clear(q)).None?
    ensures SelfInitRequest(Clear(q).slots).None?
    ensures Retrieve(Clear(q).stored, fromJson) == []
  {
  }

  // ---------------------------------------------------------------------------
  // Wait-lock broadcasts
  // ---------------------------------------------------------------------------

  /** Clearing a lock twice is clearing it once. */
  lemma UnlockIdempotent(q: Queue, lock: Lock)
    ensures UnlockProcessWait(UnlockProcessWait(q, lock), lock) == UnlockProcessWait(q, lock)
  {
    var once := UnlockProcessWait(q, lock);
    var twice := UnlockProcessWait(once, lock);
    assert forall i :: 0 <= i < |q.slots| ==> twice.slots[i] == once.slots[i];
  }

  /** Requests waiting on nothing but `lock` are all eligible once it is cleared. */
  lemma UnlockMakesEligible(q: Queue, lock: Lock)
    requires forall i :: 0 <= i < |q.slots| && q.slots[i].Some? ==> q.slots[i].value.locks <= {lock}
    ensures forall i :: 0 <= i < |q.slots| && q.slots[i].Some? ==>
      Eligible(UnlockProcessWait(q, lock).slots[i].value)
  {
  }

  /** Clearing the strong-match lock undoes setting it on every session init. */
  lemma StrongMatchThenUnlock(q: Queue)
    ensures UnlockProcessWait(SetStrongMatchWaitLock(q), StrongMatchPendingWaitLock) ==
            UnlockProcessWait(q, StrongMatchPendingWaitLock)
  {
    var a := UnlockProcessWait(SetStrongMatchWaitLock(q), StrongMatchPendingWaitLock);
    var b := UnlockProcessWait(q, StrongMatchPendingWaitLock);
    assert forall i :: 0 <= i < |q.slots| ==> a.slots[i] == b.slots[i];
  }

  /** Two lists that agree, index by index, on identity and on being a pending self init. */
  predicate SameShape(s: seq<Slot>, t: seq<Slot>) {
    && |s| == |t|
    && (forall i :: 0 <= i < |s| ==> (IsSelfInit(s[i]) <==> IsSelfInit(t[i])))
    && (forall i :: 0 <= i < |s| ==> (s[i].Some? <==> t[i].Some?))
    && (forall i :: 0 <= i < |s| && s[i].Some? ==> s[i].value.id == t[i].value.id)
  }

  /** The self-init lookup depends only on the shape of the list. */
  lemma {:induction false} SelfInitRequestOfSameShape(s: seq<Slot>, t: seq<Slot>)
    requires SameShape(s, t)
    ensures SelfInitRequest(s).Some? <==> SelfInitRequest(t).Some?
    ensures SelfInitRequest(s).Some? ==> SelfInitRequest(s).value.id == SelfInitRequest(t).value.id
    decreases |s|
  {
    if |s| > 0 && !IsSelfInit(s[0]) {
      assert SameShape(s[1..], t[1..]) by {
        assert forall i :: 0 <= i < |s| - 1 ==> s[1..][i] == s[i + 1] && t[1..][i] == t[i + 1];
      }
      SelfInitRequestOfSameShape(s[1..], t[1..]);
    }
  }

  /** Neither lock broadcast changes which request is the pending self init. */
  lemma SelfInitSurvivesLockBroadcasts(q: Queue, lock: Lock)
    ensures SelfInitRequest(UnlockProcessWait(q, lock).slots).Some? <==> SelfInitRequest(q.slots).Some?
    ensures SelfInitRequest(q.slots).Some? ==>
      SelfInitRequest(UnlockProcessWait(q, lock).slots).value.id == SelfInitRequest(q.slots).value.id
    ensures SelfInitRequest(SetStrongMatchWaitLock(q).slots).Some? <==> SelfInitRequest(q.slots).Some?
    ensures SelfInitRequest(q.slots).Some? ==>
      SelfInitRequest(SetStrongMatchWaitLock(q).slots).value.id == SelfInitRequest(q.slots).value.id
  {
    SelfInitRequestOfSameShape(q.slots, UnlockProcessWait(q, lock).slots);
    SelfInitRequestOfSameShape(q.slots, SetStrongMatchWaitLock(q).slots);
  }

  // ---------------------------------------------------------------------------
  // Persist / retrieve
  // ---------------------------------------------------------------------------

  /** `fromJSON` rebuilds `r` from its own `toJSON`: a new object alike in every other respect. */
  predicate Rebuilds(fromJson: Object -> Option<Request>, r: Request) {
    && r.serialized.Some?
    && fromJson(r.serialized.value).Some?
    && SameRequest(fromJson(r.serialized.value).value, r)
  }

  /** `fromJSON` rebuilds each of `rs`. */
  predicate Restores(fromJson: Object -> Option<Request>, rs: seq<Request>) {
    forall i :: 0 <= i < |rs| ==> Rebuilds(fromJson, rs[i])
  }

  /** Position by position, `xs` are the requests of `ys` up to identity. */
  predicate Alike(xs: seq<Request>, ys: seq<Request>) {
    |xs| == |ys| && forall i :: 0 <= i < |xs| ==> SameRequest(xs[i], ys[i])
  }

  /** Decoding what was encoded gives back the same requests, up to identity, in order. */
  lemma DecodeEncode(rs: seq<Request>, fromJson: Object -> Option<Request>)
    requires Restores(fromJson, rs)
    ensures Alike(Decode(Encode(rs), fromJson), rs)
  {
    var items := Encode(rs);
    forall i | 0 <= i < |items|
      ensures items[i].JObject? && fromJson(items[i].fields).Some?
    {
      assert Rebuilds(fromJson, rs[i]);
    }
    assert Readable(items, fromJson);
  }

  /** The first `n` elements of `s` (all of them when there are fewer). */
  function Take<T>(s: seq<T>, n: nat): (t: seq<T>)
    ensures |t| == Min(|s|, n)
    ensures forall i :: 0 <= i < |t| ==> t[i] == s[i]
  {
    if |s| <= n then s else s[..n]
  }

  /**
   * A restart after a successful persist restores the queue's persisted
   * requests in queue order, cut to `MaxItems`, as new objects, provided
   * `fromJSON` rebuilds them from their `toJSON`.
   */
  lemma PersistThenRetrieve(slots: seq<Slot>, previous: Stored, fromJson: Object -> Option<Request>)
    requires NoNulls(slots)
    requires forall r :: Some(r) in slots && Persisted(r) ==> Rebuilds(fromJson, r)
    ensures Alike(Retrieve(Persist(slots, previous), fromJson), Take(Snapshot(slots).value, MaxItems))
  {
    var rs := Snapshot(slots).value;
    var kept := Take(rs, MaxItems);
    SnapshotRestores(slots, fromJson);
    assert Restores(fromJson, kept) by {
      assert forall i :: 0 <= i < |kept| ==> kept[i] == rs[i];
    }
    var items := Encode(rs);
    assert Persist(slots, previous) == Entries(items);
    assert items[..Min(|items|, MaxItems)] == Encode(kept);
    DecodeEncode(kept, fromJson);
  }

  /** Every request in a snapshot is one `fromJSON` rebuilds, when it does so for every persisted request. */
  lemma SnapshotRestores(slots: seq<Slot>, fromJson: Object -> Option<Request>)
    requires NoNulls(slots)
    requires forall r :: Some(r) in slots && Persisted(r) ==> Rebuilds(fromJson, r)
    ensures Restores(fromJson, Snapshot(slots).value)
  {
    var rs := Snapshot(slots).value;
    forall i | 0 <= i < |rs|
      ensures Rebuilds(fromJson, rs[i])
    {
      assert rs[i] in rs;
    }
  }

  /**
   * `persist` writes in queue order, once per request: appending a request to
   * a list without nulls appends it to the snapshot exactly when it is persisted.
   */
  lemma {:induction false} SnapshotSnoc(slots: seq<Slot>, r: Request)
    requires NoNulls(slots)
    ensures Snapshot(slots + [Some(r)]) == Some(Snapshot(slots).value + (if Persisted(r) then [r] else []))
    decreases |slots|
  {
    var whole := slots + [Some(r)];
    assert NoNulls(whole);
    SnapshotCons(whole);
    if |slots| == 0 {
      assert whole[1..] == [];
      assert Snapshot(whole[1..]) == Some([]) && Snapshot(slots) == Some([]);
      assert whole[0] == Some(r);
      var last: seq<Request> := if Persisted(r) then [r] else [];
      assert Snapshot(whole).value == last + [];
      assert last + [] == [] + last;
    } else {
      assert whole[1..] == slots[1..] + [Some(r)];
      SnapshotCons(slots);
      SnapshotSnoc(slots[1..], r);
      assert whole[0] == slots[0];
      var front: seq<Request> := if Persisted(slots[0].value) then [slots[0].value] else [];
      var tail := Snapshot(slots[1..]).value;
      var last: seq<Request> := if Persisted(r) then [r] else [];
      assert Snapshot(whole).value == front + (tail + last);
      assert front + (tail + last) == (front + tail) + last;
    }
  }

  /** The first entry that is not a JSON object ends the read: nothing from it on is decoded. */
  lemma {:induction false} DecodeStopsAt(items: seq<JsonValue>, i: nat, fromJson: Object -> Option<Request>)
    requires i < |items| && !items[i].JObject?
    ensures Decode(items, fromJson) == Decode(items[..i], fromJson)
    decreases i
  {
    if i == 0 {
      assert items[..0] == [];
    } else if !items[0].JObject? {
      assert items[..i][0] == items[0];
    } else {
      assert items[1..][i - 1] == items[i];
      DecodeStopsAt(items[1..], i - 1, fromJson);
      assert items[1..][..i - 1] == items[..i][1..];
    }
  }

  /**
   * After a run of objects, one more entry adds its request when it is an
   * object that `fromJSON` accepts, and adds nothing (the read goes on or
   * ends there) otherwise.
   */
  lemma {:induction false} DecodeSnoc(items: seq<JsonValue>, v: JsonValue, fromJson: Object -> Option<Request>)
    requires forall i :: 0 <= i < |items| ==> items[i].JObject?
    ensures Decode(items + [v], fromJson) ==
      Decode(items, fromJson) + (if v.JObject? && fromJson(v.fields).Some? then [fromJson(v.fields).value] else [])
    decreases |items|
  {
    if |items| == 0 {
      assert items + [v] == [v];
      assert [v][1..] == [];
    } else {
      var whole := items + [v];
      assert whole[1..] == items[1..] + [v];
      assert whole[0] == items[0];
      assert forall i :: 0 <= i < |items[1..]| ==> items[1..][i] == items[i + 1];
      DecodeSnoc(items[1..], v, fromJson);
      DecodeCons(items, fromJson);
      DecodeCons(whole, fromJson);
    }
  }

  /**
   * A restart after a successful persist rebuilds the queue as the persisted
   * requests in queue order, cut to `MaxItems`, each one a new object.
   */
  lemma HydrateAfterPersist(slots: seq<Slot>, previous: Stored, fromJson: Object -> Option<Request>)
    requires NoNulls(slots)
    requires forall r :: Some(r) in slots && Persisted(r) ==> Rebuilds(fromJson, r)
    ensures var restored := Hydrate(Persist(slots, previous), fromJson).slots;
            var kept := Take(Snapshot(slots).value, MaxItems);
            |restored| == |kept| && forall i :: 0 <= i < |kept| ==> SameRequest(restored[i].value, kept[i])
  {
    PersistThenRetrieve(slots, previous, fromJson);
  }

  /** End to end: one persistable request enqueued on an empty queue is what a restart restores, as a new object. */
  lemma EnqueueThenRestart(q: Queue, a: Request, fromJson: Object -> Option<Request>)
    requires |q.slots| == 0
    requires Persisted(a) && Rebuilds(fromJson, a)
    ensures |Hydrate(Enqueue(q, Some(a)).stored, fromJson).slots| == 1
    ensures SameRequest(Hydrate(Enqueue(q, Some(a)).stored, fromJson).slots[0].value, a)
  {
    var slots := Enqueue(q, Some(a)).slots;
    assert slots == [Some(a)];
    PersistThenRetrieve(slots, q.stored, fromJson);
    assert Snapshot(slots).value == [a];
  }

  /**
   * Identity does not survive a restart: when `fromJSON` never hands back the
   * object `a`, removing `a` from a rebuilt queue finds nothing, whatever was
   * stored.
   */
  lemma RestartForgetsIdentity(stored: Stored, a: Request, fromJson: Object -> Option<Request>)
    requires forall o :: fromJson(o).Some? ==> fromJson(o).value.id != a.id
    ensures !Remove(Hydrate(stored, fromJson), Some(a)).1
    ensures Remove(Hydrate(stored, fromJson), Some(a)).0.slots == Hydrate(stored, fromJson).slots
  {
    var slots := Hydrate(stored, fromJson).slots;
    forall j | 0 <= j < |slots|
      ensures !SameObject(slots[j], Some(a))
    {
      var r := slots[j].value;
      assert r in Retrieve(stored, fromJson);
      var i :| 0 <= i < Min(|stored.items|, MaxItems) && stored.items[i].JObject? &&
               fromJson(stored.items[i].fields) == Some(r);
    }
  }

  /** What the instrumented tests observe: a fresh queue is empty, and one init adds exactly one entry, at index 0. */
  lemma FreshQueueTakesOneInit(fromJson: Object -> Option<Request>, init: Request)
    requires init.kind.InitSession?
    ensures |Hydrate(NotStored, fromJson).slots| == 0
    ensures |Enqueue(Hydrate(NotStored, fromJson), Some(init)).slots| == 1
    ensures PeekAt(Enqueue(Hydrate(NotStored, fromJson), Some(init)), 0) == Some(init)
    ensures |Insert(Hydrate(NotStored, fromJson), Some(init), 0).slots| == 1
    ensures PeekAt(Insert(Hydrate(NotStored, fromJson), Some(init), 0), 0) == Some(init)
  {
  }
}
