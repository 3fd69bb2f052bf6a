# y-fire storage backends, modelled in Dafny

This project models the three persistence backends of y-fire. Each one stores the
binary state of a Y.js document and pushes remote changes to subscribers.

- **FirestoreStorage** keeps the bytes inline in the document's metadata record.
  Subscribers get them from the record's `content` field.
- **GcsStorage** uploads the bytes as a blob at `{gcsPath}/{documentPath}.yjs`.
  It then merges a pointer and a server timestamp into the record. Every record
  change makes subscribers download the blob again.
- **HybridStorage** picks one of the two strategies on every save. A payload of
  at least `threshold` bytes (default 900 × 1024 = 921600) goes to the blob store.
  A smaller one goes inline. Its subscription keeps a change token
  (`lastGcsUpdatedAt`) local to each `subscribe` call. The token suppresses
  repeated downloads of the same blob, and seeing inline content resets it.

The Firebase services become small abstract stores (module `Firebase`):
- The record database is a `map<string, Record>`. A record is a
  `map<string, Value>`, and writes are `setDoc(..., {merge: true})` merges.
- The blob bucket is a `map<string, seq<byte>>`.
- A watch registration is a `Listener` object with an `active` flag.

Service failures are parameters: each upload, write or download takes the fault
it should report (`Option<FirebaseError>`). So every contract covers every
outcome, including "object not found" and errors that are rethrown. The clocks
are parameters too: Hybrid's `new Date().toISOString()` is `now: string`, and
GcsStorage's `serverTimestamp()` is `stamp: nat`.

A snapshot delivery is a call to the backend's handler with the record the
snapshot shows (None when the document does not exist). The handlers are pure
step functions (`HandleSnapshot`), and the imperative handler methods are proved
equal to them:
- `GcsStorage.OnSnapshot`.
- `HybridSubscription.OnSnapshot`, which updates the subscription's token.

`Trace` runs a handler over a sequence of deliveries, which lets the model state
properties about repeated notifications.

JavaScript semantics the source relies on are written out:
- **Truthiness.** Every object is truthy, an empty `Bytes` included. `null`,
  `undefined` and `""` are falsy.
- **`===`.** `Bytes` and `Timestamp` values are objects, and each snapshot
  decodes fresh ones, so `===` never holds between two of them.
- **`||` on options.** A threshold of 0 and an empty prefix fall back to the
  defaults.

Consequences of the code that the model makes explicit:
- An empty `Bytes` content is delivered, because every object is truthy
  (`src/storage/firestore-storage.ts:54`, `src/storage/hybrid-storage.ts:140`).
- GcsStorage's save leaves `content` unchanged: its merge writes only the
  pointer, the timestamp and the tag (`src/storage/gcs-storage.ts:58-66`).
- The blob-branch round trip holds only for a subscriber whose token is not
  already that save's time string (`src/storage/hybrid-storage.ts:126`).

## Model

| member | source | states |
|---|---|---|
| StorageTypes.Name | src/storage/types.ts:35 | every storage type is written as a non-empty name |
| StorageTypes.Parse | src/storage/types.ts:35 | exactly the strings "firestore", "gcs" and "hybrid" name a storage type, and each parses to the type with that name |
| StorageTypes.ParseName | src/storage/types.ts:35 | parsing inverts naming, so no two storage types share a name |
| StorageTypes.DefaultsAsDocumented | src/storage/types.ts:65-69 | the default storage type is "firestore", the default threshold is 921600 bytes and the default prefix is "yjs-documents" |
| StorageTypes.ResolveThreshold | src/storage/hybrid-storage.ts:49-50 | a missing or zero threshold becomes 921600, any other is kept, and the result is never 0 |
| StorageTypes.ResolveGcsPath | src/storage/hybrid-storage.ts:51 | a missing or empty prefix becomes "yjs-documents", any other is kept, and the result is never empty |
| Firebase.Merge | src/storage/firestore-storage.ts:37-39 | a merge write gives every written field its new value and keeps every other field of the existing record |
| Firebase.Fetch | src/storage/gcs-storage.ts:71-72 | a download returns the stored object, an injected fault, or the "storage/object-not-found" error when nothing is stored at the path |
| Firebase.StrictEqualsFacts | src/storage/hybrid-storage.ts:126 | between values decoded from two different snapshots, `===` holds of equal values exactly when they are primitives, so `Bytes` and `Timestamp` tokens from two snapshots are never `===`; it is symmetric and implies equality |
| FirestoreBackend.DefaultMapper | src/storage/firestore-storage.ts:32 | the default mapper produces exactly one field, `content`, holding the saved bytes |
| FirestoreBackend.HandleSnapshot | src/storage/firestore-storage.ts:52-57 | the callback fires exactly when the document exists and its `content` is a `Bytes` value, and it receives exactly those bytes |
| FirestoreBackend.RoundTrip | src/storage/firestore-storage.ts:32-57 | a save with the default mapper, followed by a snapshot of the merged record, delivers the saved bytes whatever the record held before |
| FirestoreBackend.EmptyContentIsDelivered | src/storage/firestore-storage.ts:54 | a present but empty `Bytes` content is truthy and is delivered |
| FirestoreBackend.NoContentIsSilent | src/storage/firestore-storage.ts:52-54 | a missing document, or a record whose `content` is absent or null, produces no callback |
| FirestoreBackend.MapperWithoutContentIsNotDelivered | src/storage/firestore-storage.ts:35-57 | when neither the mapper's output nor the prior record has `content`, the merged record is never delivered |
| FirestoreBackend.ResolveMapper | src/storage/firestore-storage.ts:32 | a given mapper is used as is, and a missing one falls back to the default mapper |
| FirestoreBackend.FirestoreStorage.constructor | src/storage/firestore-storage.ts:29-33 | the mapper falls back to the default mapper, and no watch is registered |
| FirestoreBackend.FirestoreStorage.Save | src/storage/firestore-storage.ts:35-40 | the record becomes the old record merged with `docMapper(data)`, or stays unchanged when the write is rejected |
| FirestoreBackend.FirestoreStorage.Load | src/storage/firestore-storage.ts:42-46 | load always settles to null |
| FirestoreBackend.FirestoreStorage.Subscribe | src/storage/firestore-storage.ts:48-63 | a fresh active registration replaces whatever the single `unsubscribe` field held |
| FirestoreBackend.FirestoreStorage.Destroy | src/storage/firestore-storage.ts:65-78 | the registered watch is cancelled and the field cleared, so a second call does nothing |
| GcsBackend.BlobPath | src/storage/gcs-storage.ts:45-47 | the blob path is the prefix, a slash, the document path and ".yjs", and the document path can be read back out of it |
| GcsBackend.BlobPathInjective | src/storage/gcs-storage.ts:45-47 | under one prefix, two documents never share a blob path |
| GcsBackend.ReadBlob | src/storage/gcs-storage.ts:69-80 | downloaded bytes are returned, "object not found" becomes null, and every other error is rethrown unchanged |
| GcsBackend.PointerFields | src/storage/gcs-storage.ts:58-66 | the metadata merge writes exactly the pointer, the server timestamp and the "gcs" tag |
| GcsBackend.PointerMergeKeepsOtherFields | src/storage/gcs-storage.ts:58-66 | the pointer merge leaves every other field, `content` included, unchanged |
| GcsBackend.HandleSnapshot | src/storage/gcs-storage.ts:86-97 | an existing record with a truthy `gcsPath` always triggers a download, whose result is forwarded even when null; a failed download gives no callback |
| GcsBackend.Trace | src/storage/gcs-storage.ts:84-98 | a watch handles each delivery independently, with the same handler |
| GcsBackend.EverySnapshotFetches | src/storage/gcs-storage.ts:86-92 | there is no deduplication: n deliveries of records with a pointer cost n downloads |
| GcsBackend.GcsStorage.constructor | src/storage/gcs-storage.ts:38-43 | the prefix falls back to "yjs-documents", and no watch is registered |
| GcsBackend.GcsStorage.StoragePath | src/storage/gcs-storage.ts:45-47 | the blob path of this instance is non-empty and ends in ".yjs" |
| GcsBackend.GcsStorage.Save | src/storage/gcs-storage.ts:49-67 | the upload comes first; a failed upload leaves both stores unchanged, and the record is re-pointed only after the blob is in place |
| GcsBackend.GcsStorage.Load | src/storage/gcs-storage.ts:69-80 | load returns the stored bytes, null when the object is absent, and rethrows any other error |
| GcsBackend.GcsStorage.OnSnapshot | src/storage/gcs-storage.ts:86-97 | the handler, with its download done through load, behaves as the step function |
| GcsBackend.GcsStorage.Subscribe | src/storage/gcs-storage.ts:82-102 | a fresh active registration replaces whatever the single `unsubscribe` field held |
| GcsBackend.GcsStorage.Destroy | src/storage/gcs-storage.ts:104-117 | the registered watch is cancelled and the field cleared, so a second call does nothing |
| GcsBackend.SaveThenLoad | src/storage/gcs-storage.ts:49-80 | after a successful save with no other write, load returns the saved bytes |
| HybridBackend.RoutesToBlob | src/storage/hybrid-storage.ts:61 | a threshold of zero or below sends every payload to the blob store |
| HybridBackend.ThresholdIsInclusive | src/storage/hybrid-storage.ts:61 | a payload of exactly `threshold` bytes goes to the blob store, and one byte less goes inline |
| HybridBackend.BlobFields | src/storage/hybrid-storage.ts:69-79 | the blob-branch record sets `content` null over anything the mapper wrote, plus the pointer, the "gcs" tag and the time string; mapper fields with other names are kept |
| HybridBackend.InlineFields | src/storage/hybrid-storage.ts:83-91 | the inline-branch record is the mapper's fields with the pointer nulled and the "firestore" tag, and it writes no change token |
| HybridBackend.SaveFields | src/storage/hybrid-storage.ts:61-91 | the tag names the branch taken; the pointer is non-null exactly on the blob branch, where `content` is null and the token is the time string |
| HybridBackend.InlineSaveKeepsOtherFields | src/storage/hybrid-storage.ts:83-91 | an inline save leaves every field it does not write unchanged, `gcsUpdatedAt` included |
| HybridBackend.DefaultMapperSaveKeepsTagConsistent | src/storage/hybrid-storage.ts:58-94 | with the default mapper, after any save a "gcs" record has null content and a pointer, and a "firestore" record has a null pointer and bytes in `content` |
| HybridBackend.HandleSnapshot | src/storage/hybrid-storage.ts:119-147 | a download happens exactly for a "gcs" record with a pointer whose token is not `===` the last one; the token is recorded even if the download fails or finds nothing; any other record with truthy content resets the token to null and is delivered exactly when that content is bytes, with those bytes; a record with neither changes nothing; the callback never gets null |
| HybridBackend.NeitherPointerNorContentIsSilent | src/storage/hybrid-storage.ts:120-145 | a record with neither a pointer nor truthy content produces no callback and leaves the token alone |
| HybridBackend.ObjectTokensAreNeverDeduplicated | src/storage/hybrid-storage.ts:123-127 | a token that is a Timestamp or Bytes object never matches the remembered token, so every such delivery downloads |
| HybridBackend.Trace | src/storage/hybrid-storage.ts:115-148 | one subscription handles its deliveries in order: the first with the token the subscription started from, every later one with the token the step before it left |
| HybridBackend.FetchAfterReset | src/storage/hybrid-storage.ts:123-144 | a delivery that resets the token to null whatever token it meets is followed by a download when the next record downloads from a null token |
| HybridBackend.RepeatedTokenFetchesAtMostOnce | src/storage/hybrid-storage.ts:123-139 | any number of deliveries of blob records with the same primitive token cause at most one download and one callback, and none when that token was the last seen |
| HybridBackend.InlineThenBlobRefetches | src/storage/hybrid-storage.ts:140-145 | with the default mapper, an inline record is delivered and resets the token, so the next blob record is downloaded even when its time string repeats |
| HybridBackend.SwitchBackAlwaysRefetches | src/storage/hybrid-storage.ts:123-145 | over deliveries of the records saved small, large, small, large, the subscriber downloads on the last whatever the time strings and the earlier downloads were |
| HybridBackend.InlineRoundTrip | src/storage/hybrid-storage.ts:83-144 | an inline save with the default mapper is delivered with exactly the saved bytes, and the token is reset |
| HybridBackend.BlobRoundTrip | src/storage/hybrid-storage.ts:61-138 | after the upload lands, a subscriber that has not seen this save's token downloads and receives exactly the saved bytes |
| HybridBackend.BlobRecordIsSilentForFirestoreBackend | src/storage/hybrid-storage.ts:69-79 | a blob-branch record has null `content`, so FirestoreStorage subscribers are not called |
| HybridBackend.HybridStorage.constructor | src/storage/hybrid-storage.ts:44-52 | the mapper, threshold and prefix fall back to their defaults when falsy; the current type starts as "firestore" |
| HybridBackend.HybridStorage.StoragePath | src/storage/hybrid-storage.ts:54-56 | the storage path is never empty, so a pointer to it is truthy |
| HybridBackend.HybridStorage.Save | src/storage/hybrid-storage.ts:58-94 | save routes by size; on the blob branch the upload comes first and a failed upload changes nothing; a completed save sets the current type to its branch, a failed one keeps the old type; the inline branch never touches the bucket |
| HybridBackend.HybridStorage.Load | src/storage/hybrid-storage.ts:96-99 | load always settles to null, whatever saves came before |
| HybridBackend.HybridStorage.LoadFromGcs | src/storage/hybrid-storage.ts:101-112 | the download uses this instance's own storage path; a missing object gives null and any other error is rethrown, so with no fault it never fails |
| HybridBackend.HybridStorage.Subscribe | src/storage/hybrid-storage.ts:114-117 | each subscription gets its own token, starting at null; the single `unsubscribe` field is overwritten with the new registration |
| HybridBackend.HybridStorage.Destroy | src/storage/hybrid-storage.ts:154-167 | the registered watch is cancelled and the field cleared, so a second call, or a call to the returned function after it, does nothing |
| HybridBackend.HybridStorage.GetCurrentStorageType | src/storage/hybrid-storage.ts:172-174 | the reported type is always "firestore" or "gcs" |
| HybridBackend.HybridSubscription.constructor | src/storage/hybrid-storage.ts:115-117 | a new registration is active, and its token is null |
| HybridBackend.HybridSubscription.OnSnapshot | src/storage/hybrid-storage.ts:119-147 | the handler, with its download done through `loadFromGcs`, updates the token and calls back as the step function says |
| HybridBackend.SecondSubscribeReplacesFirst | src/storage/hybrid-storage.ts:114-167 | after a second subscribe, destroy cancels only the second registration, and the first stays active with its own token |
| Providers.Kind | src/storage/types.ts:35 | each provider variant maps to exactly one of the three storage types, and each type to exactly one variant |
| Providers.Save | src/storage/types.ts:7-11 | save completes when no step fails, and a rejection carries the error of the step that failed |
| Providers.Load | src/storage/types.ts:13-17 | load never fails for a missing object, returns null when nothing is found, and only the blob backend returns bytes |
| Providers.Subscribe | src/storage/types.ts:19-24 | subscribe registers a fresh watch, and that watch is the one destroy will cancel |
| Providers.Destroy | src/storage/types.ts:26-29 | destroy cancels the registered watch and leaves nothing registered, so it is idempotent |

## Left out

- The Firebase SDKs (`getFirestore`, `getStorage`, `doc`, `ref`, `uploadBytes`,
  `getBytes`, `setDoc`, `onSnapshot`) are not modelled. They become the abstract
  stores of module `Firebase`. Their failures are injected faults, not modelled causes.
- The Firestore 1 MiB record limit (the reason for the threshold) is only a
  possible write fault.
- Async interleaving is not modelled: overlapping saves, uploads that land after
  newer metadata, and snapshots delivered out of order or coalesced. Each call is
  one atomic sequential step. An async snapshot handler that is still downloading
  when the next snapshot arrives is not modelled either.
- Which snapshots the SDK delivers, and that it stops delivering after
  unsubscribe, belong to the SDK. Deliveries are calls to the handlers, and
  cancellation is visible only as `Listener.active`.
- The function `subscribe` returns is not a separate member. It runs the same
  statements on the same field as `destroy`, so `Destroy` models both.
- Logging is left out: `console.error` in the handlers and the watch-error
  callbacks. So is the `contentType` upload metadata. They have no effect on
  state or callbacks.
- A thrown `toUint8Array()` on truthy content that is not `Bytes` ends the
  handler, and the model shows no callback. The rejected promise or observer
  exception itself is not modelled.
- User-supplied `docMapper` functions are abstract total functions from bytes to
  flat records. Mappers that throw or produce nested objects are not modelled,
  and nested objects would need Firestore's deep merge.
- Thresholds that are not integers, and `NaN`, are not modelled: the option is
  `Option<int>`.
- The compiled copies under `dist/` and the re-exports in `src/index.ts` are not
  part of this model. `./provider`, which `src/index.ts` references, is not part
  of this model either.
- Providers.Save: states only the outcome of a save. The effect on the stores
  is stated by each backend's own `Save`.
- HybridBackend.HybridStorage.GetCurrentStorageType: states only that the
  result is one of the two strategies. The value after each save is stated by
  `HybridStorage.Save`.
