# Branch Android SDK: request queue, close request, content metadata, commerce event

A Dafny model of four pieces of the Branch Android SDK:

- **`ServerRequestQueue`** is the bounded queue of pending server requests that survives process restarts. It supports:
  - enqueue with eviction at `MAX_ITEMS` = 25;
  - peek and peek-at-index, clamped insert, remove by index or by object, clear;
  - lookup of the client-initiated session-init request;
  - the two wait-lock broadcasts;
  - persisting the queue to a preferences entry and reading it back.
- **`ServerRequestRegisterClose`** is the session-close request. It has its own POST body, and its overrides say it is never persisted and never a GET.
- **`ContentMetadata`** is a record of optional fields with builder setters. It has:
  - a case-insensitive `CONDITION` lookup;
  - a JSON projection (`convertToJson`) and a JSON reader (`createFromJson`);
  - a Parcel writer and reader.
- **`CommerceEvent`** is a revenue/currency/transaction record with a nullable product list and a JSON projection.

Every operation is a pure function on immutable values. Each queue operation is one atomic step, which the Java code guarantees by running it under one lock. An exception the Java code swallows becomes an ordinary case of the function's result.

Files:

- `wrappers.dfy`: `Option`.
- `json.dfy`: org.json objects as string-keyed maps.
  - `put(key, null)` removes the key.
  - Runs of `put` calls, with their laws.
- `requests.dfy`: the `ServerRequest` hierarchy flattened into one record.
  - A variant tag, a lock set, the persistable and GET flags, the POST body, and the opaque `toJSON` result.
  - `isPersistable`/`isGetRequest` dispatch on the tag, as the close request's overrides do.
- `request_queue.dfy`: the queue.
- `queue_laws.dfy`: properties relating several queue operations.
- `register_close.dfy`: the close request.
- `content_metadata.dfy`: the metadata record, `CONDITION`, the setters.
- `metadata_serial.dfy`: `convertToJson`, `createFromJson`, the Parcel form, both round trips.
- `commerce_event.dfy`: the commerce event.

Modelling choices that follow the code rather than the prose around it:

- **A null can sit in the queue.** `insert` has no null check, unlike `enqueue`, so a null can be stored there. The list is therefore a sequence of `Option<Request>`. While a null is queued, `persist` throws inside its own `try` and writes nothing, so the stored entry stays as it was (`Persist`).
- **`retrieve` stops at the first bad entry.** An array entry that is not a JSON object makes `getJSONObject` throw. The `catch` sits outside the loop, so that entry and every later one are dropped, not just that one (`Decode`). Entries whose `fromJSON` is null are skipped. At most 25 entries are read.
- **Some operations do not persist.** `unlockProcessWait` and `setStrongMatchWaitLock` do not persist, and neither do the calls that change nothing: `enqueue(null)`, `insert` at a negative index, and `removeAt` at an invalid index. `remove` persists even when nothing was removed.
- **`remove` compares by identity.** `ServerRequest` is not part of this model. `remove(request)` is modelled as using the default identity `equals`, through a request `id`. A null matches a null.

## Model

| member | source | states |
|---|---|---|
| Requests.IsPersistable | app/libs/android-branch-deep-linking-attribution-master/Branch-SDK/src/main/java/io/branch/referral/ServerRequestRegisterClose.java:75-78 | a close request is never persistable; any other request answers its own flag |
| Requests.IsGetRequest | app/libs/android-branch-deep-linking-attribution-master/Branch-SDK/src/main/java/io/branch/referral/ServerRequestRegisterClose.java:65-68 | a close request is never a GET; any other request answers its own flag |
| Requests.AddProcessWaitLock | app/libs/android-branch-deep-linking-attribution-master/Branch-SDK/src/main/java/io/branch/referral/ServerRequestQueue.java:302 | the lock is in the set afterwards, no other lock is added or lost, nothing else about the request changes |
| Requests.RemoveProcessWaitLock | app/libs/android-branch-deep-linking-attribution-master/Branch-SDK/src/main/java/io/branch/referral/ServerRequestQueue.java:288 | the lock is gone afterwards, no other lock is added or lost, nothing else about the request changes |
| RequestQueue.Snapshot | app/libs/android-branch-deep-linking-attribution-master/Branch-SDK/src/main/java/io/branch/referral/ServerRequestQueue.java:76-86 | a snapshot exists exactly when no slot is null; it holds exactly the queued requests that are persistable with a non-null JSON, each of its elements is one, and it is no longer than the list (order and multiplicity: `QueueLaws.SnapshotSnoc`) |
| RequestQueue.Persist | app/libs/android-branch-deep-linking-attribution-master/Branch-SDK/src/main/java/io/branch/referral/ServerRequestQueue.java:74-93 | with a null slot the stored entry is unchanged; otherwise it becomes an array holding, position by position, the JSON object of each snapshot request, so no longer than the list |
| RequestQueue.Decode | app/libs/android-branch-deep-linking-attribution-master/Branch-SDK/src/main/java/io/branch/referral/ServerRequestQueue.java:101-110 | never yields more requests than entries; every request it yields is `fromJSON` of some object entry; a non-object first entry yields nothing; when every entry is an object that `fromJSON` accepts, it yields one request per entry, in order |
| RequestQueue.Retrieve | app/libs/android-branch-deep-linking-attribution-master/Branch-SDK/src/main/java/io/branch/referral/ServerRequestQueue.java:95-114 | at most 25 requests; nothing from a missing or unparseable entry; otherwise exactly the decoding of the first 25 array entries |
| RequestQueue.Hydrate | app/libs/android-branch-deep-linking-attribution-master/Branch-SDK/src/main/java/io/branch/referral/ServerRequestQueue.java:68-72 | a freshly built queue holds no null and keeps the stored entry; its slots are exactly the retrieved requests, in order, so at most 25 |
| RequestQueue.PeekAt | app/libs/android-branch-deep-linking-attribution-master/Branch-SDK/src/main/java/io/branch/referral/ServerRequestQueue.java:173-182 | a request comes back exactly when the index is in range (negative indices included) and that slot holds one, and it is the one at that index |
| RequestQueue.Peek | app/libs/android-branch-deep-linking-attribution-master/Branch-SDK/src/main/java/io/branch/referral/ServerRequestQueue.java:152-161 | nothing for an empty queue, otherwise the head |
| RequestQueue.SelfInitRequest | app/libs/android-branch-deep-linking-attribution-master/Branch-SDK/src/main/java/io/branch/referral/ServerRequestQueue.java:267-279 | found exactly when some queued request is a client-initiated init session, and then it is the first such request |
| RequestQueue.Enqueue | app/libs/android-branch-deep-linking-attribution-master/Branch-SDK/src/main/java/io/branch/referral/ServerRequestQueue.java:134-144 | null changes nothing; otherwise the request is last, the size grows by one unless the list would reach 25, in which case it stays put and only the element at index 1 is evicted; the other earlier elements keep their order, the head is kept, and the result is persisted |
| RequestQueue.Insert | app/libs/android-branch-deep-linking-attribution-master/Branch-SDK/src/main/java/io/branch/referral/ServerRequestQueue.java:193-204 | a negative index changes nothing; otherwise the request lands at the index clamped to the size, the elements before and after keep their order, no capacity bound applies, and the result is persisted |
| RequestQueue.RemoveAt | app/libs/android-branch-deep-linking-attribution-master/Branch-SDK/src/main/java/io/branch/referral/ServerRequestQueue.java:216-226 | an invalid index returns nothing and changes nothing; a valid one returns that element, deletes exactly it keeping the order of the rest, and persists |
| RequestQueue.Remove | app/libs/android-branch-deep-linking-attribution-master/Branch-SDK/src/main/java/io/branch/referral/ServerRequestQueue.java:235-245 | true exactly when the same object is queued; then only its first occurrence is deleted, otherwise the list is unchanged; persisted either way |
| RequestQueue.Clear | app/libs/android-branch-deep-linking-attribution-master/Branch-SDK/src/main/java/io/branch/referral/ServerRequestQueue.java:250-258 | the list is empty and the stored entry is the empty array |
| RequestQueue.UnlockProcessWait | app/libs/android-branch-deep-linking-attribution-master/Branch-SDK/src/main/java/io/branch/referral/ServerRequestQueue.java:284-292 | every queued request loses the lock and nothing else; length, order, nulls and the stored entry are unchanged |
| RequestQueue.SetStrongMatchWaitLock | app/libs/android-branch-deep-linking-attribution-master/Branch-SDK/src/main/java/io/branch/referral/ServerRequestQueue.java:297-307 | every init-session request gains the strong-match lock, every other request is untouched; length, order, nulls and the stored entry are unchanged |
| QueueLaws.EnqueueAllBounded | app/libs/android-branch-deep-linking-attribution-master/Branch-SDK/src/main/java/io/branch/referral/ServerRequestQueue.java:134-144 | any run of enqueues on a queue within capacity never shrinks it, never takes it past 25, and never evicts its head |
| QueueLaws.EnqueueAddsOnlyItsRequest | app/libs/android-branch-deep-linking-attribution-master/Branch-SDK/src/main/java/io/branch/referral/ServerRequestQueue.java:134-144 | after an enqueue, every element was already queued or is the new request |
| QueueLaws.EnqueueIsInsertAtEnd | app/libs/android-branch-deep-linking-attribution-master/Branch-SDK/src/main/java/io/branch/referral/ServerRequestQueue.java:193-204 | below capacity, enqueue is insert at the size |
| QueueLaws.InsertThenRemoveAt | app/libs/android-branch-deep-linking-attribution-master/Branch-SDK/src/main/java/io/branch/referral/ServerRequestQueue.java:193-226 | removing at the clamped insert position gives back the inserted element and the original list |
| QueueLaws.EnqueueThenRemove | app/libs/android-branch-deep-linking-attribution-master/Branch-SDK/src/main/java/io/branch/referral/ServerRequestQueue.java:235-245 | removing a request just enqueued below capacity, not already queued, reports true and restores the list |
| QueueLaws.ClearEmpties | app/libs/android-branch-deep-linking-attribution-master/Branch-SDK/src/main/java/io/branch/referral/ServerRequestQueue.java:250-258 | after clear there is no head, no pending self init, and a restart restores nothing |
| QueueLaws.UnlockIdempotent | app/libs/android-branch-deep-linking-attribution-master/Branch-SDK/src/main/java/io/branch/referral/ServerRequestQueue.java:284-292 | clearing a lock twice is clearing it once |
| QueueLaws.UnlockMakesEligible | app/libs/android-branch-deep-linking-attribution-master/Branch-SDK/src/main/java/io/branch/referral/ServerRequestQueue.java:284-292 | requests waiting on nothing but that lock all wait on nothing afterwards |
| QueueLaws.StrongMatchThenUnlock | app/libs/android-branch-deep-linking-attribution-master/Branch-SDK/src/main/java/io/branch/referral/ServerRequestQueue.java:284-307 | clearing the strong-match lock undoes setting it |
| QueueLaws.SelfInitRequestOfSameShape | app/libs/android-branch-deep-linking-attribution-master/Branch-SDK/src/main/java/io/branch/referral/ServerRequestQueue.java:267-279 | two lists that agree index by index on identity and on being a client-initiated init find the same self-init request, or none in both |
| QueueLaws.SelfInitSurvivesLockBroadcasts | app/libs/android-branch-deep-linking-attribution-master/Branch-SDK/src/main/java/io/branch/referral/ServerRequestQueue.java:267-307 | neither lock broadcast changes which request is the pending self init |
| QueueLaws.DecodeEncode | app/libs/android-branch-deep-linking-attribution-master/Branch-SDK/src/main/java/io/branch/referral/ServerRequestQueue.java:74-114 | reading back the array written for some requests gives as many requests, in order, each alike the written one in everything but identity, when `fromJSON` rebuilds each from its `toJSON` as a new object |
| QueueLaws.PersistThenRetrieve | app/libs/android-branch-deep-linking-attribution-master/Branch-SDK/src/main/java/io/branch/referral/ServerRequestQueue.java:74-114 | a restart after a persist of a list without nulls restores the persisted requests in queue order, cut to 25, as new objects alike in everything but identity |
| QueueLaws.SnapshotSnoc | app/libs/android-branch-deep-linking-attribution-master/Branch-SDK/src/main/java/io/branch/referral/ServerRequestQueue.java:76-86 | appending a request to a list without nulls appends it to the snapshot exactly when it is persisted, so the snapshot keeps queue order and holds each persisted slot once |
| QueueLaws.DecodeStopsAt | app/libs/android-branch-deep-linking-attribution-master/Branch-SDK/src/main/java/io/branch/referral/ServerRequestQueue.java:101-110 | the first non-object entry ends the read: the result is the decoding of the entries before it |
| QueueLaws.DecodeSnoc | app/libs/android-branch-deep-linking-attribution-master/Branch-SDK/src/main/java/io/branch/referral/ServerRequestQueue.java:101-110 | after a run of objects, one more entry adds its request when it is an object that `fromJSON` accepts, and adds nothing when `fromJSON` gives null |
| QueueLaws.HydrateAfterPersist | app/libs/android-branch-deep-linking-attribution-master/Branch-SDK/src/main/java/io/branch/referral/ServerRequestQueue.java:68-114 | a restart after a persist of a list without nulls rebuilds the queue as the persisted requests in queue order, cut to 25, each a new object alike in everything but identity |
| QueueLaws.EnqueueThenRestart | app/libs/android-branch-deep-linking-attribution-master/Branch-SDK/src/main/java/io/branch/referral/ServerRequestQueue.java:68-144 | one persistable request enqueued on an empty queue is what a restart restores: one request, alike in everything but identity |
| QueueLaws.RestartForgetsIdentity | app/libs/android-branch-deep-linking-attribution-master/Branch-SDK/src/main/java/io/branch/referral/ServerRequestQueue.java:68-114 | when `fromJSON` never hands back the object itself, `remove` of any pre-restart request finds nothing in a rebuilt queue and leaves it as it is |
| QueueLaws.FreshQueueTakesOneInit | app/libs/android-branch-deep-linking-attribution-master/Branch-SDK/src/androidTest/java/io/branch/referral/BranchPreinstallFileTest.java:20-35 | a queue built from nothing is empty; one init request enqueued or inserted at 0 gives size 1 with that request at index 0 |
| CloseRequest.ClosePost | app/libs/android-branch-deep-linking-attribution-master/Branch-SDK/src/main/java/io/branch/referral/ServerRequestRegisterClose.java:24-34 | device fingerprint, identity and session ids always present with their values; link click id exactly when it is not the unset value; app version exactly when device info exists; no other key |
| CloseRequest.NewRegisterClose | app/libs/android-branch-deep-linking-attribution-master/Branch-SDK/src/main/java/io/branch/referral/ServerRequestRegisterClose.java:22-40 | a close request carrying that body, neither persistable nor a GET |
| CloseRequest.RestoredRegisterClose | app/libs/android-branch-deep-linking-attribution-master/Branch-SDK/src/main/java/io/branch/referral/ServerRequestRegisterClose.java:42-44 | a close request with the given body, neither persistable nor a GET |
| CloseRequest.HandleErrors | app/libs/android-branch-deep-linking-attribution-master/Branch-SDK/src/main/java/io/branch/referral/ServerRequestRegisterClose.java:47-52 | the failure is handled exactly when internet permission is missing |
| CloseRequest.OnRequestSucceeded | app/libs/android-branch-deep-linking-attribution-master/Branch-SDK/src/main/java/io/branch/referral/ServerRequestRegisterClose.java:55-58 | session params become the unset value and every other preference is unchanged |
| CloseRequest.CloseNeverSnapshotted | app/libs/android-branch-deep-linking-attribution-master/Branch-SDK/src/main/java/io/branch/referral/ServerRequestRegisterClose.java:75-78 | no close request is ever part of what persist writes |
| CloseRequest.CloseNotRestored | app/libs/android-branch-deep-linking-attribution-master/Branch-SDK/src/main/java/io/branch/referral/ServerRequestQueue.java:74-144 | a close request enqueued before a restart is not in the restored queue, when `fromJSON` keeps the class of what it reads (or gives null) |
| Metadata.ConditionsComplete | app/libs/android-branch-deep-linking-attribution-master/Branch-SDK/src/main/java/io/branch/referral/util/ContentMetadata.java:116-117 | the constant list `values()` iterates holds every condition |
| Metadata.FirstNamed | app/libs/android-branch-deep-linking-attribution-master/Branch-SDK/src/main/java/io/branch/referral/util/ContentMetadata.java:122-127 | a constant found matches the name ignoring case; none found means no constant in the list does |
| Metadata.ConditionOf | app/libs/android-branch-deep-linking-attribution-master/Branch-SDK/src/main/java/io/branch/referral/util/ContentMetadata.java:119-130 | null or empty gives null; a result matches the name ignoring case; null for a non-empty name means no constant matches |
| Metadata.UpperNamesMatchUniquely | app/libs/android-branch-deep-linking-attribution-master/Branch-SDK/src/main/java/io/branch/referral/util/ContentMetadata.java:123 | two upper-case names equal to one string ignoring case are equal |
| Metadata.ConditionOfIff | app/libs/android-branch-deep-linking-attribution-master/Branch-SDK/src/main/java/io/branch/referral/util/ContentMetadata.java:119-130 | the lookup yields a constant exactly when that constant's name equals the string ignoring case |
| Metadata.ConditionOfName | app/libs/android-branch-deep-linking-attribution-master/Branch-SDK/src/main/java/io/branch/referral/util/ContentMetadata.java:119-130 | `getValue(c.name())` is `c` for every constant |
| Metadata.Empty | app/libs/android-branch-deep-linking-attribution-master/Branch-SDK/src/main/java/io/branch/referral/util/ContentMetadata.java:133-136 | a new record has no captions, no custom data and null fields |
| Metadata.AddImageCaptions | app/libs/android-branch-deep-linking-attribution-master/Branch-SDK/src/main/java/io/branch/referral/util/ContentMetadata.java:144-147 | the old captions followed by the new ones in argument order; nothing else changes |
| Metadata.AddCustomMetadata | app/libs/android-branch-deep-linking-attribution-master/Branch-SDK/src/main/java/io/branch/referral/util/ContentMetadata.java:156-159 | the key maps to the value, the key set gains at most that key, every other entry is kept, nothing else changes |
| Metadata.SetContentSchema | app/libs/android-branch-deep-linking-attribution-master/Branch-SDK/src/main/java/io/branch/referral/util/ContentMetadata.java:161-164 | sets the schema and nothing else |
| Metadata.SetQuantity | app/libs/android-branch-deep-linking-attribution-master/Branch-SDK/src/main/java/io/branch/referral/util/ContentMetadata.java:166-169 | sets the quantity and nothing else |
| Metadata.SetAddress | app/libs/android-branch-deep-linking-attribution-master/Branch-SDK/src/main/java/io/branch/referral/util/ContentMetadata.java:171-178 | sets exactly the five address fields |
| Metadata.SetLocation | app/libs/android-branch-deep-linking-attribution-master/Branch-SDK/src/main/java/io/branch/referral/util/ContentMetadata.java:180-184 | sets latitude and longitude and nothing else |
| Metadata.SetRating | app/libs/android-branch-deep-linking-attribution-master/Branch-SDK/src/main/java/io/branch/referral/util/ContentMetadata.java:186-192 | sets rating, average, maximum and count and nothing else |
| Metadata.SetRatingLegacy | app/libs/android-branch-deep-linking-attribution-master/Branch-SDK/src/main/java/io/branch/referral/util/ContentMetadata.java:197-202 | sets average, maximum and count, leaves the rating as it was |
| Metadata.SetPrice | app/libs/android-branch-deep-linking-attribution-master/Branch-SDK/src/main/java/io/branch/referral/util/ContentMetadata.java:204-208 | sets price and currency and nothing else |
| Metadata.SetProductBrand | app/libs/android-branch-deep-linking-attribution-master/Branch-SDK/src/main/java/io/branch/referral/util/ContentMetadata.java:210-213 | sets the brand and nothing else |
| Metadata.SetProductCategory | app/libs/android-branch-deep-linking-attribution-master/Branch-SDK/src/main/java/io/branch/referral/util/ContentMetadata.java:215-218 | sets the category and nothing else |
| Metadata.SetProductCondition | app/libs/android-branch-deep-linking-attribution-master/Branch-SDK/src/main/java/io/branch/referral/util/ContentMetadata.java:220-223 | sets the condition and nothing else |
| Metadata.SetProductName | app/libs/android-branch-deep-linking-attribution-master/Branch-SDK/src/main/java/io/branch/referral/util/ContentMetadata.java:225-228 | sets the product name and nothing else |
| Metadata.SetProductVariant | app/libs/android-branch-deep-linking-attribution-master/Branch-SDK/src/main/java/io/branch/referral/util/ContentMetadata.java:230-233 | sets the variant and nothing else |
| Metadata.SetSku | app/libs/android-branch-deep-linking-attribution-master/Branch-SDK/src/main/java/io/branch/referral/util/ContentMetadata.java:235-238 | sets the SKU and nothing else |
| Metadata.AddImageCaptionsTwice | app/libs/android-branch-deep-linking-attribution-master/Branch-SDK/src/main/java/io/branch/referral/util/ContentMetadata.java:144-147 | adding captions in two calls is adding them in one |
| Metadata.SetRatingLegacyKeepsRating | app/libs/android-branch-deep-linking-attribution-master/Branch-SDK/src/main/java/io/branch/referral/util/ContentMetadata.java:186-202 | the deprecated setter is the four-argument one with the current rating passed back in |
| MetadataSerial.AllKeysComplete | app/libs/android-branch-deep-linking-attribution-master/Branch-SDK/src/main/java/io/branch/referral/util/ContentMetadata.java:264-333 | the order `convertToJson` writes in covers every standard key |
| MetadataSerial.KeyOf | app/libs/android-branch-deep-linking-attribution-master/Branch-SDK/src/main/java/io/branch/referral/util/ContentMetadata.java:348-369 | a recognised JSON key is the name of the standard key returned |
| MetadataSerial.KeyOfKeyName | app/libs/android-branch-deep-linking-attribution-master/Branch-SDK/src/main/java/io/branch/referral/util/ContentMetadata.java:348-369 | every standard key is recognised by its own name |
| MetadataSerial.KeyNameInjective | app/libs/android-branch-deep-linking-attribution-master/Branch-SDK/src/main/java/io/branch/referral/util/ContentMetadata.java:264-333 | no two standard keys share a name |
| MetadataSerial.Field | app/libs/android-branch-deep-linking-attribution-master/Branch-SDK/src/main/java/io/branch/referral/util/ContentMetadata.java:264-333 | a value is written for a key exactly when its presence rule holds: non-empty strings, non-null objects and numbers, non-empty captions |
| MetadataSerial.StandardLookup | app/libs/android-branch-deep-linking-attribution-master/Branch-SDK/src/main/java/io/branch/referral/util/ContentMetadata.java:264-333 | after the guarded puts of some keys, a key's name is present exactly when it was among them and its rule holds, with its own value, and nothing else is present |
| MetadataSerial.ToJson | app/libs/android-branch-deep-linking-attribution-master/Branch-SDK/src/main/java/io/branch/referral/util/ContentMetadata.java:261-344 | each standard key not shadowed by custom data is present exactly under its rule with its value; the captions array is present iff there are captions, in order; every custom entry is present as written; no other key appears |
| MetadataSerial.EmptyToJson | app/libs/android-branch-deep-linking-attribution-master/Branch-SDK/src/main/java/io/branch/referral/util/ContentMetadata.java:133-136 | a new metadata record converts to an empty JSON object: no key is written for a null field |
| MetadataSerial.CustomOverridesStandard | app/libs/android-branch-deep-linking-attribution-master/Branch-SDK/src/main/java/io/branch/referral/util/ContentMetadata.java:335-339 | a custom entry named like a standard key wins over the standard value |
| MetadataSerial.ToJsonLocal | app/libs/android-branch-deep-linking-attribution-master/Branch-SDK/src/main/java/io/branch/referral/util/ContentMetadata.java:261-344 | two records with the same custom data, written alike on every standard key outside a set of names, convert to objects that agree outside those names |
| MetadataSerial.SetContentSchemaJson | app/libs/android-branch-deep-linking-attribution-master/Branch-SDK/src/main/java/io/branch/referral/util/ContentMetadata.java:161-164 | the setter leaves `convertToJson`'s output unchanged on every key except the schema key |
| MetadataSerial.SetQuantityJson | app/libs/android-branch-deep-linking-attribution-master/Branch-SDK/src/main/java/io/branch/referral/util/ContentMetadata.java:166-169 | the setter leaves `convertToJson`'s output unchanged on every key except the quantity key |
| MetadataSerial.SetAddressJson | app/libs/android-branch-deep-linking-attribution-master/Branch-SDK/src/main/java/io/branch/referral/util/ContentMetadata.java:171-178 | the setter leaves `convertToJson`'s output unchanged on every key except the five address keys |
| MetadataSerial.SetLocationJson | app/libs/android-branch-deep-linking-attribution-master/Branch-SDK/src/main/java/io/branch/referral/util/ContentMetadata.java:180-184 | the setter leaves `convertToJson`'s output unchanged on every key except the latitude and longitude keys |
| MetadataSerial.SetRatingJson | app/libs/android-branch-deep-linking-attribution-master/Branch-SDK/src/main/java/io/branch/referral/util/ContentMetadata.java:186-192 | the setter leaves `convertToJson`'s output unchanged on every key except the four rating keys |
| MetadataSerial.SetPriceJson | app/libs/android-branch-deep-linking-attribution-master/Branch-SDK/src/main/java/io/branch/referral/util/ContentMetadata.java:204-208 | the setter leaves `convertToJson`'s output unchanged on every key except the price and currency keys |
| MetadataSerial.SetProductBrandJson | app/libs/android-branch-deep-linking-attribution-master/Branch-SDK/src/main/java/io/branch/referral/util/ContentMetadata.java:210-213 | the setter leaves `convertToJson`'s output unchanged on every key except the brand key |
| MetadataSerial.SetProductCategoryJson | app/libs/android-branch-deep-linking-attribution-master/Branch-SDK/src/main/java/io/branch/referral/util/ContentMetadata.java:215-218 | the setter leaves `convertToJson`'s output unchanged on every key except the category key |
| MetadataSerial.SetProductConditionJson | app/libs/android-branch-deep-linking-attribution-master/Branch-SDK/src/main/java/io/branch/referral/util/ContentMetadata.java:220-223 | the setter leaves `convertToJson`'s output unchanged on every key except the condition key |
| MetadataSerial.SetProductNameJson | app/libs/android-branch-deep-linking-attribution-master/Branch-SDK/src/main/java/io/branch/referral/util/ContentMetadata.java:225-228 | the setter leaves `convertToJson`'s output unchanged on every key except the product-name key |
| MetadataSerial.SetProductVariantJson | app/libs/android-branch-deep-linking-attribution-master/Branch-SDK/src/main/java/io/branch/referral/util/ContentMetadata.java:230-233 | the setter leaves `convertToJson`'s output unchanged on every key except the variant key |
| MetadataSerial.SetSkuJson | app/libs/android-branch-deep-linking-attribution-master/Branch-SDK/src/main/java/io/branch/referral/util/ContentMetadata.java:235-238 | the setter leaves `convertToJson`'s output unchanged on every key except the SKU key |
| MetadataSerial.AddImageCaptionsJson | app/libs/android-branch-deep-linking-attribution-master/Branch-SDK/src/main/java/io/branch/referral/util/ContentMetadata.java:144-147 | the setter leaves `convertToJson`'s output unchanged on every key except the image-captions key |
| MetadataSerial.ReadString | app/libs/android-branch-deep-linking-attribution-master/Branch-SDK/src/main/java/io/branch/referral/util/ContentMetadata.java:352 | a string is read exactly when the key holds one, and it is that string |
| MetadataSerial.ReadDouble | app/libs/android-branch-deep-linking-attribution-master/Branch-SDK/src/main/java/io/branch/referral/util/ContentMetadata.java:349 | a number is read exactly when the key holds one, null otherwise |
| MetadataSerial.ReadInt | app/libs/android-branch-deep-linking-attribution-master/Branch-SDK/src/main/java/io/branch/referral/util/ContentMetadata.java:360 | an integer is read exactly when the key holds one, null otherwise |
| MetadataSerial.ReadCaptions | app/libs/android-branch-deep-linking-attribution-master/Branch-SDK/src/main/java/io/branch/referral/util/ContentMetadata.java:369-374 | the captions array element by element through `optString`, in array order; none when the key holds no array |
| MetadataSerial.Leftover | app/libs/android-branch-deep-linking-attribution-master/Branch-SDK/src/main/java/io/branch/referral/util/ContentMetadata.java:376-383 | the custom entries are exactly the keys that name no standard key, each through `optString` |
| MetadataSerial.FromJson | app/libs/android-branch-deep-linking-attribution-master/Branch-SDK/src/main/java/io/branch/referral/util/ContentMetadata.java:346-388 | condition through `getValue` of the string read; captions in array order; custom data is exactly the leftover keys |
| MetadataSerial.Norm | app/libs/android-branch-deep-linking-attribution-master/Branch-SDK/src/main/java/io/branch/referral/util/ContentMetadata.java:276-278 | a string survives exactly when it is non-empty, unchanged |
| MetadataSerial.LeftoverOfToJson | app/libs/android-branch-deep-linking-attribution-master/Branch-SDK/src/main/java/io/branch/referral/util/ContentMetadata.java:335-383 | the keys left over after reading `convertToJson`'s output are exactly the custom entries, when none shadows a standard key |
| MetadataSerial.ToJsonCarries | app/libs/android-branch-deep-linking-attribution-master/Branch-SDK/src/main/java/io/branch/referral/util/ContentMetadata.java:261-344 | without shadowing, the output carries each standard field under its presence rule |
| MetadataSerial.ReadField | app/libs/android-branch-deep-linking-attribution-master/Branch-SDK/src/main/java/io/branch/referral/util/ContentMetadata.java:348-368 | reading a standard key from an object carrying `m` finds the value written for it |
| MetadataSerial.ProductTextOfCarrier | app/libs/android-branch-deep-linking-attribution-master/Branch-SDK/src/main/java/io/branch/referral/util/ContentMetadata.java:352-357 | SKU, name, brand and variant read back with empty strings as null |
| MetadataSerial.AddressOfCarrier | app/libs/android-branch-deep-linking-attribution-master/Branch-SDK/src/main/java/io/branch/referral/util/ContentMetadata.java:362-366 | the five address fields read back with empty strings as null |
| MetadataSerial.NumbersOfCarrier | app/libs/android-branch-deep-linking-attribution-master/Branch-SDK/src/main/java/io/branch/referral/util/ContentMetadata.java:349-368 | every number field reads back exactly, nulls included |
| MetadataSerial.NamesOfCarrier | app/libs/android-branch-deep-linking-attribution-master/Branch-SDK/src/main/java/io/branch/referral/util/ContentMetadata.java:348-374 | schema, currency, category and condition read back as their names, captions as written |
| MetadataSerial.ReadCaptionsOfCarrier | app/libs/android-branch-deep-linking-attribution-master/Branch-SDK/src/main/java/io/branch/referral/util/ContentMetadata.java:327-374 | the captions written come back unchanged and in order |
| MetadataSerial.FromCarrier | app/libs/android-branch-deep-linking-attribution-master/Branch-SDK/src/main/java/io/branch/referral/util/ContentMetadata.java:346-388 | any object carrying `m`'s standard fields reads back as `m` up to empty strings, with the leftover keys as custom data |
| MetadataSerial.JsonRoundTrip | app/libs/android-branch-deep-linking-attribution-master/Branch-SDK/src/main/java/io/branch/referral/util/ContentMetadata.java:261-388 | `createFromJson(convertToJson(m))` is `m` with empty strings turned into null, when no custom key shadows a standard key and the enum lookups invert the names |
| MetadataSerial.NameOrEmpty | app/libs/android-branch-deep-linking-attribution-master/Branch-SDK/src/main/java/io/branch/referral/util/ContentMetadata.java:409 | a null enum is written as the empty string, otherwise as its name |
| MetadataSerial.ToParcel | app/libs/android-branch-deep-linking-attribution-master/Branch-SDK/src/main/java/io/branch/referral/util/ContentMetadata.java:407-434 | twenty-three values; the condition as its name or the empty string; a null string, `Double` or `Integer` as the one untyped null; captions and custom data last |
| MetadataSerial.FromParcel | app/libs/android-branch-deep-linking-attribution-master/Branch-SDK/src/main/java/io/branch/referral/util/ContentMetadata.java:436-466 | reading succeeds exactly for a well-formed parcel, where a null is accepted at every scalar position; the condition goes through `getValue`; a null rating count reads as null; captions and custom data are taken as read |
| MetadataSerial.NullReadableAtScalars | app/libs/android-branch-deep-linking-attribution-master/Branch-SDK/src/main/java/io/branch/referral/util/ContentMetadata.java:436-459 | a null in place of any of the first twenty-one values of a readable parcel leaves it readable |
| MetadataSerial.ParcelRoundTrip | app/libs/android-branch-deep-linking-attribution-master/Branch-SDK/src/main/java/io/branch/referral/util/ContentMetadata.java:407-466 | reading a written parcel gives the same metadata back, a null condition included, when the enum lookups invert the names |
| MetadataSerial.ToParcelWellFormed | app/libs/android-branch-deep-linking-attribution-master/Branch-SDK/src/main/java/io/branch/referral/util/ContentMetadata.java:407-466 | every parcel the writer produces is readable |
| Json.Put | app/libs/android-branch-deep-linking-attribution-master/Branch-SDK/src/main/java/io/branch/referral/util/CommerceEvent.java:118-124 | a non-null value is stored under the key, a null one removes it, every other key is untouched |
| Json.Strings | app/libs/android-branch-deep-linking-attribution-master/Branch-SDK/src/main/java/io/branch/referral/util/ContentMetadata.java:327-333 | one JSON string per caption, in order |
| Json.PutAllDistinct | app/libs/android-branch-deep-linking-attribution-master/Branch-SDK/src/main/java/io/branch/referral/util/CommerceEvent.java:118-125 | after a run of puts on distinct keys each key is present exactly when its value is non-null, with that value; other keys are untouched |
| Json.PutPut | app/libs/android-branch-deep-linking-attribution-master/Branch-SDK/src/main/java/io/branch/referral/util/CommerceEvent.java:118-124 | puts on different keys commute; a second put on a key wins |
| Json.PutAllCommute | app/libs/android-branch-deep-linking-attribution-master/Branch-SDK/src/main/java/io/branch/referral/util/CommerceEvent.java:118-125 | a put on a key the rest of the run never touches can move to the end |
| Json.PutAllUpdate | app/libs/android-branch-deep-linking-attribution-master/Branch-SDK/src/main/java/io/branch/referral/util/CommerceEvent.java:118-125 | changing one value in a run of puts on distinct keys is one more put at the end |
| Json.PutAllKeys | app/libs/android-branch-deep-linking-attribution-master/Branch-SDK/src/main/java/io/branch/referral/util/CommerceEvent.java:118-125 | a run of puts adds no key it does not name |
| Commerce.Empty | app/libs/android-branch-deep-linking-attribution-master/Branch-SDK/src/main/java/io/branch/referral/util/CommerceEvent.java:89-90 | a new event has no product list and null fields |
| Commerce.WithProducts | app/libs/android-branch-deep-linking-attribution-master/Branch-SDK/src/main/java/io/branch/referral/util/CommerceEvent.java:92-101 | every field as given, the product list kept as passed, null included |
| Commerce.WithProduct | app/libs/android-branch-deep-linking-attribution-master/Branch-SDK/src/main/java/io/branch/referral/util/CommerceEvent.java:103-113 | every field as given and a one-element product list |
| Commerce.SetRevenue | app/libs/android-branch-deep-linking-attribution-master/Branch-SDK/src/main/java/io/branch/referral/util/CommerceEvent.java:26-28 | sets the revenue and nothing else |
| Commerce.SetCurrencyType | app/libs/android-branch-deep-linking-attribution-master/Branch-SDK/src/main/java/io/branch/referral/util/CommerceEvent.java:34-36 | sets the currency and nothing else |
| Commerce.SetTransactionId | app/libs/android-branch-deep-linking-attribution-master/Branch-SDK/src/main/java/io/branch/referral/util/CommerceEvent.java:42-44 | sets the transaction id and nothing else |
| Commerce.SetShipping | app/libs/android-branch-deep-linking-attribution-master/Branch-SDK/src/main/java/io/branch/referral/util/CommerceEvent.java:50-52 | sets the shipping and nothing else |
| Commerce.SetTax | app/libs/android-branch-deep-linking-attribution-master/Branch-SDK/src/main/java/io/branch/referral/util/CommerceEvent.java:58-60 | sets the tax and nothing else |
| Commerce.SetCoupon | app/libs/android-branch-deep-linking-attribution-master/Branch-SDK/src/main/java/io/branch/referral/util/CommerceEvent.java:66-68 | sets the coupon and nothing else |
| Commerce.SetAffiliation | app/libs/android-branch-deep-linking-attribution-master/Branch-SDK/src/main/java/io/branch/referral/util/CommerceEvent.java:74-76 | sets the affiliation and nothing else |
| Commerce.SetProducts | app/libs/android-branch-deep-linking-attribution-master/Branch-SDK/src/main/java/io/branch/referral/util/CommerceEvent.java:78-80 | sets the product list and nothing else |
| Commerce.AddProduct | app/libs/android-branch-deep-linking-attribution-master/Branch-SDK/src/main/java/io/branch/referral/util/CommerceEvent.java:82-87 | with no list the result is just that product; otherwise the existing products in order followed by it; nothing else changes |
| Commerce.GetProducts | app/libs/android-branch-deep-linking-attribution-master/Branch-SDK/src/main/java/io/branch/referral/util/CommerceEvent.java:133-142 | null exactly when there is no list; otherwise one JSON object per product, in order |
| Commerce.GetProductsOfAddProduct | app/libs/android-branch-deep-linking-attribution-master/Branch-SDK/src/main/java/io/branch/referral/util/CommerceEvent.java:82-142 | adding a product appends its JSON object to `getProducts()` |
| Commerce.WithProductIsAddProduct | app/libs/android-branch-deep-linking-attribution-master/Branch-SDK/src/main/java/io/branch/referral/util/CommerceEvent.java:82-113 | the one-product constructor is `addProduct` on the list constructor given null |
| Commerce.EntriesDistinct | app/libs/android-branch-deep-linking-attribution-master/Branch-SDK/src/main/java/io/branch/referral/util/CommerceEvent.java:118-125 | the keys `getCommerceJSONObject` puts are distinct |
| Commerce.ToJson | app/libs/android-branch-deep-linking-attribution-master/Branch-SDK/src/main/java/io/branch/referral/util/CommerceEvent.java:115-131 | each scalar key is present exactly when its field is non-null, with its value, the currency as the enum object; "products" exactly when there is a list, as the array of `getProducts()` |
| Commerce.PutEntries | app/libs/android-branch-deep-linking-attribution-master/Branch-SDK/src/main/java/io/branch/referral/util/CommerceEvent.java:115-131 | the run of puts stores each non-null entry under its own key; "products" is absent without a list |
| Commerce.EntriesProductsLast | app/libs/android-branch-deep-linking-attribution-master/Branch-SDK/src/main/java/io/branch/referral/util/CommerceEvent.java:125 | without a list no put names "products" |
| Commerce.ToJsonKeys | app/libs/android-branch-deep-linking-attribution-master/Branch-SDK/src/main/java/io/branch/referral/util/CommerceEvent.java:115-131 | the projection has no key outside its eight |
| Commerce.EmptyToJson | app/libs/android-branch-deep-linking-attribution-master/Branch-SDK/src/main/java/io/branch/referral/util/CommerceEvent.java:89-131 | a new event projects to an empty JSON object |
| Commerce.SetRevenueIsPut | app/libs/android-branch-deep-linking-attribution-master/Branch-SDK/src/main/java/io/branch/referral/util/CommerceEvent.java:26-28 | setting the revenue changes the projection by one put at "revenue" |
| Commerce.SetCurrencyTypeIsPut | app/libs/android-branch-deep-linking-attribution-master/Branch-SDK/src/main/java/io/branch/referral/util/CommerceEvent.java:34-36 | setting the currency changes the projection by one put at "currency" |
| Commerce.SetTransactionIdIsPut | app/libs/android-branch-deep-linking-attribution-master/Branch-SDK/src/main/java/io/branch/referral/util/CommerceEvent.java:42-44 | setting the transaction id changes the projection by one put at "transaction_id" |
| Commerce.SetShippingIsPut | app/libs/android-branch-deep-linking-attribution-master/Branch-SDK/src/main/java/io/branch/referral/util/CommerceEvent.java:50-52 | setting the shipping changes the projection by one put at "shipping" |
| Commerce.SetTaxIsPut | app/libs/android-branch-deep-linking-attribution-master/Branch-SDK/src/main/java/io/branch/referral/util/CommerceEvent.java:58-60 | setting the tax changes the projection by one put at "tax" |
| Commerce.SetCouponIsPut | app/libs/android-branch-deep-linking-attribution-master/Branch-SDK/src/main/java/io/branch/referral/util/CommerceEvent.java:66-68 | setting the coupon changes the projection by one put at "coupon" |
| Commerce.SetAffiliationIsPut | app/libs/android-branch-deep-linking-attribution-master/Branch-SDK/src/main/java/io/branch/referral/util/CommerceEvent.java:74-76 | setting the affiliation changes the projection by one put at "affiliation" |
| Commerce.AddProductShowsProducts | app/libs/android-branch-deep-linking-attribution-master/Branch-SDK/src/main/java/io/branch/referral/util/CommerceEvent.java:82-125 | after `addProduct` the projection has a "products" array ending with that product's object |

## Left out

- **Concurrency.** The lock object, `Collections.synchronizedList`, and the double-checked `getInstance`/`shutDown` singleton are left out. Each queue operation is one atomic step on a value.
- **Restored requests are new objects.** `fromJSON` always builds a new object, so the restart laws promise each restored request alike the written one in everything but identity (`SameRequest`), never the same object.
- **Storage I/O.** SharedPreferences and `editor.apply()` are left out. The stored entry is a value: never written, unparseable, or a parsed JSON array. The text round trip through `JSONArray.toString()` is taken to give back the same array.
- **Code outside this model.** `ServerRequest`, `toJSON`/`fromJSON`, `Product.getProductJSONObject`, `PrefHelper`, `DeviceInfo`, `Defines` and `BranchUtil.JsonReader` are not part of this model.
  - Their results are inputs: the `serialized` field, the `fromJson` parameter, `Product.json`, `Prefs`, `DeviceInfo`.
  - The key strings are written as the published `Defines.Jsonkey` names. The proofs depend only on their being distinct.
  - A new request waits on no lock.
- **The `getValue` of `BranchContentSchema`, `CurrencyType` and `ProductCategory`.** They are not part of this model and are passed in as `Lookups`. The round trips assume they invert the names.
- **`CurrencyType` naming.** `CurrencyType.toString()` and `name()` are both taken to be the constant's name.
- **`MetadataSerial.ReadString`, `MetadataSerial.ReadInt`:** the `JsonReader` read-outs are modelled as yielding null for a missing key, or for a value of another type. The real reader may render a missing key as `""`.
- **`MetadataSerial.Leftover`, `MetadataSerial.ReadCaptions`:** a caption or custom value that is not a JSON string reads as `""`. `optString` would render numbers and booleans as text.
- **`MetadataSerial.ReadDouble`:** a key holding a non-number reads as null. `optDouble` would give NaN.
- **`MetadataSerial.ToJson` and `Commerce.ToJson`: NaN and infinite doubles are not modelled.** `Double` is opaque, so these values are not distinguished. With org.json, `put` throws on them, and the swallowed exception cuts the object short.
- RequestQueue.Remove: identity comparison assumes `ServerRequest` does not override `equals`. That class is not part of this model.
- Commerce.AddProduct: a null `Product` is not modelled. `addProduct(null)` and the one-product constructor accept one. `getProducts` would then throw a `NullPointerException`, which escapes the `JSONException` catch of `getCommerceJSONObject`.
- **Product lists are not Java lists.** A product list given to the list constructor or `setProducts` might be immutable, so that `addProduct` would throw. A product list is a sequence here.
- **The products array.** "products" is modelled as a JSON array of the product objects. org.json stores the raw Java list and renders it only when printed.
- **`constructError_` in the close request.** It is set only when `put` throws on a null key, and every key here is a constant.
- **Empty overrides.** `handleFailure` and `clearCallbacks` of the close request have empty bodies.
- **Nulls in `ContentMetadata`.** Null custom keys and values, and null captions, are not modelled.
- **`Metadata.ConditionOf`, `Metadata.FirstNamed`, `Metadata.ConditionOfIff`: `equalsIgnoreCase` is ASCII only.** It is modelled with ASCII case mapping. The `CONDITION` names are ASCII, but full Unicode case folding is not modelled.
- **Session coordination.** Dispatch and timeouts live in code outside this model. The UI and glue files are also left out.
