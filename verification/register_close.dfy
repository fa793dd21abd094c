/**
 * The session-close request (`ServerRequestRegisterClose`): its POST body,
 * its overrides of the request hooks, and why it never survives a restart.
 */
module CloseRequest {
  import opened Wrappers
  import opened Json
  import opened Requests
  import opened RequestQueue
  import opened QueueLaws

  /** `PrefHelper.NO_STRING_VALUE`, the value of an unset preference. */
  const NoStringValue := "bnc_no_value"

  // Keys of `Defines.Jsonkey` used by the close body.
  const DeviceFingerprintIdKey := "device_fingerprint_id"
  const IdentityIdKey := "identity_id"
  const SessionIdKey := "session_id"
  const LinkClickIdKey := "link_click_id"
  const AppVersionKey := "app_version"

  /** The preferences the close request reads and writes. */
  datatype Prefs = Prefs(
    deviceFingerprintId: string,
    identityId: string,
    sessionId: string,
    linkClickId: string,
    sessionParams: string)

  /** The `DeviceInfo` singleton, when it has been created. */
  datatype DeviceInfo = DeviceInfo(appVersion: string)

  /**
   * The POST body the first constructor builds: the three identifiers always,
   * the link click id only when it is set, the app version only when device
   * information exists.
   */
  function ClosePost(prefs: Prefs, device: Option<DeviceInfo>): (post: Object)
    ensures DeviceFingerprintIdKey in post && post[DeviceFingerprintIdKey] == JString(prefs.deviceFingerprintId)
    ensures IdentityIdKey in post && post[IdentityIdKey] == JString(prefs.identityId)
    ensures SessionIdKey in post && post[SessionIdKey] == JString(prefs.sessionId)
    ensures LinkClickIdKey in post <==> prefs.linkClickId != NoStringValue
    ensures LinkClickIdKey in post ==> post[LinkClickIdKey] == JString(prefs.linkClickId)
    ensures AppVersionKey in post <==> device.Some?
    ensures AppVersionKey in post ==> post[AppVersionKey] == JString(device.value.appVersion)
    ensures post.Keys <= {DeviceFingerprintIdKey, IdentityIdKey, SessionIdKey, LinkClickIdKey, AppVersionKey}
  {
    var ids := map[DeviceFingerprintIdKey := JString(prefs.deviceFingerprintId),
                   IdentityIdKey := JString(prefs.identityId),
                   SessionIdKey := JString(prefs.sessionId)];
    var withClick := if prefs.linkClickId != NoStringValue
                     then ids[LinkClickIdKey := JString(prefs.linkClickId)] else ids;
    if device.Some? then withClick[AppVersionKey := JString(device.value.appVersion)] else withClick
  }

  /**
   * `new ServerRequestRegisterClose(context)`: a close request carrying
   * `ClosePost`, waiting on no lock, neither persistable nor a GET.
   */
  function NewRegisterClose(id: nat, prefs: Prefs, device: Option<DeviceInfo>,
                            serialized: Option<Object>): (r: Request)
    ensures r.kind.RegisterClose? && r.id == id && r.locks == {}
    ensures r.post == ClosePost(prefs, device)
    ensures !IsPersistable(r) && !IsGetRequest(r)
    ensures Eligible(r)
  {
    Request(id, RegisterClose, {}, false, false, ClosePost(prefs, device), serialized)
  }

  /** The second constructor, used when a close request is rebuilt from a path and a body. */
  function RestoredRegisterClose(id: nat, post: Object, serialized: Option<Object>): (r: Request)
    ensures r.kind.RegisterClose? && r.post == post
    ensures !IsPersistable(r) && !IsGetRequest(r)
  {
    Request(id, RegisterClose, {}, false, false, post, serialized)
  }

  /** `handleErrors`: the failure is handled (reported) exactly when internet permission is missing. */
  function HandleErrors(hasInternetPermission: bool): (handled: bool)
    ensures handled <==> !hasInternetPermission
  {
    !hasInternetPermission
  }

  /** `onRequestSucceeded`: forgets the session parameters and touches nothing else. */
  function OnRequestSucceeded(prefs: Prefs): (after: Prefs)
    ensures after.sessionParams == NoStringValue
    ensures after.deviceFingerprintId == prefs.deviceFingerprintId && after.identityId == prefs.identityId
    ensures after.sessionId == prefs.sessionId && after.linkClickId == prefs.linkClickId
  {
    prefs.(sessionParams := NoStringValue)
  }

  /** No close request is ever part of what `persist` writes. */
  lemma CloseNeverSnapshotted(slots: seq<Slot>)
    requires NoNulls(slots)
    ensures forall r :: r in Snapshot(slots).value ==> !r.kind.RegisterClose?
  {
  }

  /**
   * End to end: enqueue a close request, restart, and the restored queue holds
   * no close request, provided `fromJSON` keeps the class of what was persisted.
   */
  lemma CloseNotRestored(q: Queue, close: Request, fromJson: Object -> Option<Request>)
    requires close.kind.RegisterClose?
    requires NoNulls(q.slots)
    requires forall r :: Some(r) in q.slots && Persisted(r) && fromJson(r.serialized.value).Some? ==>
      fromJson(r.serialized.value).value.kind == r.kind
    ensures forall i :: 0 <= i < |Hydrate(Enqueue(q, Some(close)).stored, fromJson).slots| ==>
      !Hydrate(Enqueue(q, Some(close)).stored, fromJson).slots[i].value.kind.RegisterClose?
  {
    var q1 := Enqueue(q, Some(close));
    EnqueueAddsOnlyItsRequest(q, Some(close));
    assert NoNulls(q1.slots);
    var snap := Snapshot(q1.slots).value;
    var items := Persist(q1.slots, q.stored).items;
    assert q1.stored == Entries(items);
    var restored := Hydrate(q1.stored, fromJson).slots;
    forall i | 0 <= i < |restored|
      ensures !restored[i].value.kind.RegisterClose?
    {
      var r := restored[i].value;
      assert r in Retrieve(q1.stored, fromJson);
      var j :| 0 <= j < Min(|items|, MaxItems) && items[j].JObject? && fromJson(items[j].fields) == Some(r);
      var w := snap[j];
      assert w in snap && items[j].fields == w.serialized.value;
      assert Some(w) in q.slots && Persisted(w);
    }
  }
}
