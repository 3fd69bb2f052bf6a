/**
 The hybrid backend (`HybridStorage`): each save picks inline storage in the
 metadata record or blob storage by payload size, and the subscription turns
 the two record shapes into one stream of callbacks, using a change token
 local to each subscription to avoid downloading the same blob twice.
 */
module HybridBackend {
  import opened Wrappers
  import opened Firebase
  import opened StorageTypes
  import GcsBackend
  import FirestoreBackend

  /** `"firestore" | "gcs"`: the strategies a save can use. */
  type Strategy = t: StorageType | !t.Hybrid? witness Firestore

  /** The routing test of `save`: a payload at or above the threshold goes to
      the blob store, so a negative threshold, which the `||` default keeps,
      sends every payload there. */
  predicate RoutesToBlob(size: int, threshold: int): (blob: bool)
    ensures threshold <= 0 && size >= 0 ==> blob
  {
    size >= threshold
  }

  /** A payload of exactly `threshold` bytes is stored as a blob; one byte less is stored inline. */
  lemma ThresholdIsInclusive(threshold: nat)
    ensures RoutesToBlob(threshold, threshold)
    ensures threshold > 0 ==> !RoutesToBlob(threshold - 1, threshold)
  {
  }

  /** The fields merged by the blob branch: whatever `docMapper` makes of empty
      bytes, overridden by a null `content`, the pointer, the `"gcs"` tag and the
      client's ISO time as change token. */
  function BlobFields(mapper: seq<byte> -> Record, path: string, now: string): (r: Record)
    ensures r.Keys == mapper([]).Keys + {"content", "gcsPath", "storageType", "gcsUpdatedAt"}
    ensures r["content"] == Null && r["gcsPath"] == Str(path)
    ensures r["storageType"] == Str(Name(Gcs)) && r["gcsUpdatedAt"] == Str(now)
    ensures forall k :: k in mapper([]) && k !in {"content", "gcsPath", "storageType", "gcsUpdatedAt"} ==> r[k] == mapper([])[k]
  {
    mapper([]) + map["content" := Null, "gcsPath" := Str(path), "storageType" := Str("gcs"), "gcsUpdatedAt" := Str(now)]
  }

  /** The fields merged by the inline branch: `docMapper(data)` with the pointer
      cleared and the `"firestore"` tag. The change token is not written. */
  function InlineFields(mapper: seq<byte> -> Record, data: seq<byte>): (r: Record)
    ensures r.Keys == mapper(data).Keys + {"gcsPath", "storageType"}
    ensures r["gcsPath"] == Null && r["storageType"] == Str(Name(Firestore))
    ensures forall k :: k in mapper(data) && k !in {"gcsPath", "storageType"} ==> r[k] == mapper(data)[k]
  {
    mapper(data) + map["gcsPath" := Null, "storageType" := Str("firestore")]
  }

  /** The fields a save of `data` merges into the record: the tag names the
      branch taken, the pointer is set exactly on the blob branch, and the blob
      branch nulls `content` and writes a new change token. */
  function SaveFields(data: seq<byte>, threshold: int, mapper: seq<byte> -> Record, path: string, now: string): (r: Record)
    ensures Field(r, "storageType") == Some(Str(Name(if RoutesToBlob(|data|, threshold) then Gcs else Firestore)))
    ensures RoutesToBlob(|data|, threshold) <==> Field(r, "gcsPath") != Some(Null)
    ensures RoutesToBlob(|data|, threshold) ==>
              Field(r, "gcsPath") == Some(Str(path)) && Field(r, "content") == Some(Null) && Field(r, "gcsUpdatedAt") == Some(Str(now))
    ensures !RoutesToBlob(|data|, threshold) && "gcsUpdatedAt" !in mapper(data) ==> "gcsUpdatedAt" !in r
  {
    if RoutesToBlob(|data|, threshold) then BlobFields(mapper, path, now) else InlineFields(mapper, data)
  }

  /** An inline save with a mapper that does not write the change token leaves
      the token, and every other field it does not write, as it was. */
  lemma InlineSaveKeepsOtherFields(prior: Option<Record>, mapper: seq<byte> -> Record, data: seq<byte>, key: string)
    requires prior.Some?
    requires key !in mapper(data) && key !in {"gcsPath", "storageType"}
    ensures Field(Merge(prior, InlineFields(mapper, data)), key) == Field(prior.value, key)
  {
  }

  /** With the default mapper, the tag and the live field always agree after a
      save: a `"gcs"` record has a null `content` and a pointer, a `"firestore"`
      record has a cleared pointer and its bytes in `content`. */
  predicate LiveFieldMatchesTag(rec: Record) {
    && (Field(rec, "storageType") == Some(Str("gcs")) ==> Field(rec, "content") == Some(Null) && Truthy(Field(rec, "gcsPath")))
    && (Field(rec, "storageType") == Some(Str("firestore")) ==> Field(rec, "gcsPath") == Some(Null) && "content" in rec && rec["content"].Bytes?)
  }

  lemma DefaultMapperSaveKeepsTagConsistent(prior: Option<Record>, data: seq<byte>, threshold: int, prefix: string, documentPath: string, now: string)
    ensures LiveFieldMatchesTag(Merge(prior, SaveFields(data, threshold, FirestoreBackend.DefaultMapper, GcsBackend.BlobPath(prefix, documentPath), now)))
  {
    var path := GcsBackend.BlobPath(prefix, documentPath);
    var fields := SaveFields(data, threshold, FirestoreBackend.DefaultMapper, path, now);
    var rec := Merge(prior, fields);
    if RoutesToBlob(|data|, threshold) {
      assert rec["gcsPath"] == Str(path) && path != "";
    } else {
      assert rec["content"] == FirestoreBackend.DefaultMapper(data)["content"];
    }
  }

  /** A record that the subscription reads from the blob store: tagged `"gcs"` with a truthy pointer. */
  predicate PointsToBlob(rec: Record) {
    Field(rec, "storageType") == Some(Str("gcs")) && Truthy(Field(rec, "gcsPath"))
  }

  /** The subscription's change token after a delivery, whether a download was
      started, and what the callback received. */
  datatype HybridStep = HybridStep(last: Option<Value>, fetched: bool, delivery: Delivery<seq<byte>>)

  /** The snapshot handler of `subscribe`, given the subscription's token
      `lastGcsUpdatedAt` (None stands for `undefined`) and what `loadFromGcs`
      would download. */
  function HandleSnapshot(last: Option<Value>, snapshot: Option<Record>, fetch: Result<seq<byte>, FirebaseError>): (r: HybridStep)
    // a missing document changes nothing
    ensures snapshot.None? ==> r == HybridStep(last, false, Silent)
    // a download happens exactly for a blob record whose token differs from the last one seen
    ensures r.fetched <==> snapshot.Some? && PointsToBlob(snapshot.value) && !StrictEquals(Field(snapshot.value, "gcsUpdatedAt"), last)
    // the token is recorded whether or not the download succeeds
    ensures r.fetched ==> r.last == Field(snapshot.value, "gcsUpdatedAt")
    // a suppressed blob record leaves the token and the callback alone
    ensures snapshot.Some? && PointsToBlob(snapshot.value) && !r.fetched ==> r == HybridStep(last, false, Silent)
    // the downloaded bytes are delivered only when the download found them
    ensures r.fetched ==> (r.delivery.Callback? <==> fetch.Success?) && (fetch.Success? ==> r.delivery.data == Some(fetch.value))
    // a record that is not a blob pointer but has truthy content resets the
    // token to null, and is delivered exactly when that content is bytes
    ensures snapshot.Some? && !PointsToBlob(snapshot.value) && Truthy(Field(snapshot.value, "content")) ==>
              !r.fetched && r.last == Some(Null) && (r.delivery.Callback? <==> "content" in snapshot.value && snapshot.value["content"].Bytes?)
    // a record with neither a blob pointer nor truthy content changes nothing
    ensures snapshot.Some? && !PointsToBlob(snapshot.value) && !Truthy(Field(snapshot.value, "content")) ==> r == HybridStep(last, false, Silent)
    // inline bytes are delivered with the token reset to null
    ensures !r.fetched && r.delivery.Callback? ==>
              r.last == Some(Null) && snapshot.Some? && r.delivery.data.Some? && Field(snapshot.value, "content") == Some(Bytes(r.delivery.data.value))
    // the callback never receives null
    ensures r.delivery.Callback? ==> r.delivery.data.Some?
  {
    match snapshot
    case None => HybridStep(last, false, Silent)
    case Some(rec) =>
      if PointsToBlob(rec) then
        var token := Field(rec, "gcsUpdatedAt");
        if StrictEquals(token, last) then
          HybridStep(last, false, Silent)
        else
          var loaded := GcsBackend.ReadBlob(fetch);
          HybridStep(token, true, if loaded.Success? && loaded.value.Some? then Callback(loaded.value) else Silent)
      else if Truthy(Field(rec, "content")) then
        HybridStep(Some(Null), false, if rec["content"].Bytes? then Callback(Some(rec["content"].data)) else Silent)
      else
        HybridStep(last, false, Silent)
  }

  /** A record with neither a blob pointer nor truthy content is never delivered and leaves the token alone. */
  lemma NeitherPointerNorContentIsSilent(last: Option<Value>, rec: Record, fetch: Result<seq<byte>, FirebaseError>)
    requires !PointsToBlob(rec) && !Truthy(Field(rec, "content"))
    ensures HandleSnapshot(last, Some(rec), fetch) == HybridStep(last, false, Silent)
  {
  }

  /** `Bytes` and `Timestamp` tokens are objects, decoded afresh for every
      snapshot, so they never equal the remembered token: every delivery of such
      a blob record (the server timestamp `GcsStorage` writes, for one) downloads again. */
  lemma ObjectTokensAreNeverDeduplicated(last: Option<Value>, rec: Record, fetch: Result<seq<byte>, FirebaseError>)
    requires PointsToBlob(rec)
    requires "gcsUpdatedAt" in rec && (rec["gcsUpdatedAt"].Timestamp? || rec["gcsUpdatedAt"].Bytes?)
    ensures HandleSnapshot(last, Some(rec), fetch).fetched
  {
  }

  /** The handler applied to every delivery of one subscription, in order, threading the token. */
  function Trace(last: Option<Value>, events: seq<Event>): (steps: seq<HybridStep>)
    ensures |steps| == |events|
    // the first delivery is handled with the token the subscription started from
    ensures |events| > 0 ==> steps[0] == HandleSnapshot(last, events[0].snapshot, events[0].fetch)
    // every later delivery is handled with the token the step before it left
    ensures forall i :: 0 < i < |events| ==> steps[i] == HandleSnapshot(steps[i - 1].last, events[i].snapshot, events[i].fetch)
    decreases |events|
  {
    if events == [] then []
    else
      var s := HandleSnapshot(last, events[0].snapshot, events[0].fetch);
      [s] + Trace(s.last, events[1..])
  }

  /** The number of downloads a run of steps started. */
  function FetchCount(steps: seq<HybridStep>): nat {
    if steps == [] then 0 else (if steps[0].fetched then 1 else 0) + FetchCount(steps[1..])
  }

  /** The number of callbacks a run of steps made. */
  function CallbackCount(steps: seq<HybridStep>): nat {
    if steps == [] then 0 else (if steps[0].delivery.Callback? then 1 else 0) + CallbackCount(steps[1..])
  }

  /** Every event shows a blob record carrying the token `t`. */
  predicate AllBlobWithToken(events: seq<Event>, t: Option<Value>) {
    forall i :: 0 <= i < |events| ==>
      events[i].snapshot.Some? && PointsToBlob(events[i].snapshot.value) && Field(events[i].snapshot.value, "gcsUpdatedAt") == t
  }

  /** Deduplication: however many deliveries show a blob record with the same
      string (or null, or missing) token, whatever else changed in it, at most
      one download and one callback follow, and none when that token was
      already the last one seen. */
  lemma {:induction false} RepeatedTokenFetchesAtMostOnce(last: Option<Value>, events: seq<Event>, t: Option<Value>)
    requires AllBlobWithToken(events, t) && IsPrimitive(t)
    ensures FetchCount(Trace(last, events)) <= 1
    ensures CallbackCount(Trace(last, events)) <= 1
    ensures StrictEquals(t, last) ==> FetchCount(Trace(last, events)) == 0 && CallbackCount(Trace(last, events)) == 0
    decreases |events|
  {
    if events != [] {
      var s := HandleSnapshot(last, events[0].snapshot, events[0].fetch);
      var rest := events[1..];
      assert AllBlobWithToken(rest, t) by {
        forall i | 0 <= i < |rest| ensures rest[i] == events[i + 1] { }
      }
      assert StrictEquals(t, s.last);
      RepeatedTokenFetchesAtMostOnce(s.last, rest, t);
      assert Trace(last, events) == [s] + Trace(s.last, rest);
      assert !s.fetched ==> !s.delivery.Callback?;
    }
  }

  /** Strategy switch: with the default mapper, once a subscriber has seen an
      inline record its token is null, so the next blob record is downloaded
      even if its ISO time string equals a token seen before the switch. */
  lemma InlineThenBlobRefetches(prior: Option<Record>, small: seq<byte>, large: seq<byte>, threshold: int, path: string,
                                now1: string, now2: string,
                                f1: Result<seq<byte>, FirebaseError>, f2: Result<seq<byte>, FirebaseError>)
    requires |small| < threshold <= |large| && path != ""
    ensures forall last: Option<Value> ::
      var r1 := Merge(prior, SaveFields(small, threshold, FirestoreBackend.DefaultMapper, path, now1));
      var r2 := Merge(Some(r1), SaveFields(large, threshold, FirestoreBackend.DefaultMapper, path, now2));
      var s1 := HandleSnapshot(last, Some(r1), f1);
      s1 == HybridStep(Some(Null), false, Callback(Some(small))) && HandleSnapshot(s1.last, Some(r2), f2).fetched
  {
    var r1 := Merge(prior, SaveFields(small, threshold, FirestoreBackend.DefaultMapper, path, now1));
    assert r1["content"] == Bytes(small);
    assert !PointsToBlob(r1);
  }

  /** Small, large, small, large: whatever the time strings (equal ones
      included), a subscriber that sees all four records downloads on the last. */
  lemma SwitchBackAlwaysRefetches(last: Option<Value>, prior: Option<Record>, small1: seq<byte>, large1: seq<byte>,
                                  small2: seq<byte>, large2: seq<byte>, now1: string, now2: string,
                                  threshold: int, path: string, events: seq<Event>)
    requires |small1| < threshold <= |large1| && |small2| < threshold <= |large2| && path != ""
    requires var m := FirestoreBackend.DefaultMapper;
             var r0 := Merge(prior, SaveFields(small1, threshold, m, path, now1));
             var r1 := Merge(Some(r0), SaveFields(large1, threshold, m, path, now1));
             var r2 := Merge(Some(r1), SaveFields(small2, threshold, m, path, now2));
             var r3 := Merge(Some(r2), SaveFields(large2, threshold, m, path, now2));
             |events| == 4 && events[0].snapshot == Some(r0) && events[1].snapshot == Some(r1)
             && events[2].snapshot == Some(r2) && events[3].snapshot == Some(r3)
    ensures Trace(last, events)[3].fetched
  {
    var m := FirestoreBackend.DefaultMapper;
    var r0 := Merge(prior, SaveFields(small1, threshold, m, path, now1));
    var r1 := Merge(Some(r0), SaveFields(large1, threshold, m, path, now1));
    InlineThenBlobRefetches(Some(r1), small2, large2, threshold, path, now2, now2, events[2].fetch, events[3].fetch);
    FetchAfterReset(last, events, 2);
  }

  /** A delivery that resets the token to null whatever token it meets is
      followed by a download when the next record downloads from a null token. */
  lemma FetchAfterReset(last: Option<Value>, events: seq<Event>, i: nat)
    requires i + 1 < |events|
    requires forall l: Option<Value> :: HandleSnapshot(l, events[i].snapshot, events[i].fetch).last == Some(Null)
    requires HandleSnapshot(Some(Null), events[i + 1].snapshot, events[i + 1].fetch).fetched
    ensures Trace(last, events)[i + 1].fetched
  {
    var steps := Trace(last, events);
    if i == 0 {
      assert steps[i].last == Some(Null);
    } else {
      assert steps[i] == HandleSnapshot(steps[i - 1].last, events[i].snapshot, events[i].fetch);
    }
  }

  /** Round trip through the inline branch: with the default mapper, the
      subscriber receives exactly the saved bytes, whatever token it held. */
  lemma InlineRoundTrip(last: Option<Value>, prior: Option<Record>, data: seq<byte>, threshold: int, path: string, now: string,
                        fetch: Result<seq<byte>, FirebaseError>)
    requires !RoutesToBlob(|data|, threshold)
    ensures HandleSnapshot(last, Some(Merge(prior, SaveFields(data, threshold, FirestoreBackend.DefaultMapper, path, now))), fetch)
            == HybridStep(Some(Null), false, Callback(Some(data)))
  {
    var rec := Merge(prior, SaveFields(data, threshold, FirestoreBackend.DefaultMapper, path, now));
    assert rec["content"] == Bytes(data);
  }

  /** Round trip through the blob branch: once the upload to `path` landed,
      a subscriber that has not yet seen this save's token downloads and
      receives exactly the saved bytes. */
  lemma BlobRoundTrip(last: Option<Value>, prior: Option<Record>, objects: map<string, seq<byte>>, data: seq<byte>,
                      threshold: int, mapper: seq<byte> -> Record, path: string, now: string)
    requires RoutesToBlob(|data|, threshold) && path != ""
    requires last != Some(Str(now))
    ensures HandleSnapshot(last, Some(Merge(prior, SaveFields(data, threshold, mapper, path, now))), Fetch(objects[path := data], path, None))
            == HybridStep(Some(Str(now)), true, Callback(Some(data)))
  {
  }

  /** A record written by the blob branch carries no bytes for the
      document-database backend: its subscribers are not called. */
  lemma BlobRecordIsSilentForFirestoreBackend(prior: Option<Record>, mapper: seq<byte> -> Record, path: string, now: string)
    ensures FirestoreBackend.HandleSnapshot(Some(Merge(prior, BlobFields(mapper, path, now)))) == Silent
  {
  }

  class HybridStorage {
    const db: Firestore
    const bucket: Bucket
    const documentPath: string
    const docMapper: seq<byte> -> Record
    const threshold: int
    const gcsPath: string
    var unsubscribe: Option<Listener>
    var currentStorageType: Strategy

    constructor (db: Firestore, bucket: Bucket, documentPath: string, docMapper: Option<seq<byte> -> Record>,
                 hybridThreshold: Option<int>, gcsPath: Option<string>)
      ensures this.db == db && this.bucket == bucket && this.documentPath == documentPath
      ensures this.docMapper == FirestoreBackend.ResolveMapper(docMapper)
      ensures threshold == ResolveThreshold(hybridThreshold) && this.gcsPath == ResolveGcsPath(gcsPath)
      ensures unsubscribe == None && currentStorageType == Firestore
    {
      this.db := db;
      this.bucket := bucket;
      this.documentPath := documentPath;
      this.docMapper := FirestoreBackend.ResolveMapper(docMapper);
      threshold := ResolveThreshold(hybridThreshold);
      this.gcsPath := ResolveGcsPath(gcsPath);
      unsubscribe := None;
      currentStorageType := Firestore;
    }

    /** `getStoragePath()`. */
    function StoragePath(): (p: string)
      ensures p != ""
    {
      GcsBackend.BlobPath(gcsPath, documentPath)
    }

    /** Routes by size. Blob branch: upload, then merge the pointer record, then
        record `"gcs"`. Inline branch: merge the bytes with the pointer cleared,
        then record `"firestore"`; the bucket is not touched. The first rejected
        step ends the save, leaving what follows it undone. */
    method Save(data: seq<byte>, now: string, uploadFault: Option<FirebaseError>, writeFault: Option<FirebaseError>)
      returns (r: Outcome<FirebaseError>)
      modifies this`currentStorageType, db, bucket
      ensures var blob := RoutesToBlob(|data|, threshold);
              var uploaded := blob && uploadFault.None?;
              var written := (!blob || uploadFault.None?) && writeFault.None?;
              && bucket.objects == (if uploaded then old(bucket.objects)[StoragePath() := data] else old(bucket.objects))
              && db.docs == (if written then old(db.docs)[documentPath := Merge(old(db.Snapshot(documentPath)), SaveFields(data, threshold, docMapper, StoragePath(), now))] else old(db.docs))
              && currentStorageType == (if !written then old(currentStorageType) else if blob then Gcs else Firestore)
              && r == (if blob && uploadFault.Some? then Fail(uploadFault.value) else if writeFault.Some? then Fail(writeFault.value) else Pass)
      ensures db.docs != old(db.docs) && RoutesToBlob(|data|, threshold) ==> StoragePath() in bucket.objects && bucket.objects[StoragePath()] == data
    {
      if RoutesToBlob(|data|, threshold) {
        r := bucket.UploadBytes(StoragePath(), data, uploadFault);
        if r.Fail? {
          return;
        }
        r := db.SetDoc(documentPath, BlobFields(docMapper, StoragePath(), now), writeFault);
        if r.Fail? {
          return;
        }
        currentStorageType := Gcs;
      } else {
        r := db.SetDoc(documentPath, InlineFields(docMapper, data), writeFault);
        if r.Fail? {
          return;
        }
        currentStorageType := Firestore;
      }
    }

    /** Delivery is left to the subscription: `load` always settles to null. */
    method Load() returns (r: Result<Option<seq<byte>>, FirebaseError>)
      ensures r == Success(None)
    {
      r := Success(None);
    }

    /** `loadFromGcs()`: downloads the blob at this instance's own storage path
        (not the record's pointer); not found settles to null. */
    method LoadFromGcs(fault: Option<FirebaseError>) returns (r: Result<Option<seq<byte>>, FirebaseError>)
      ensures r == GcsBackend.ReadBlob(Fetch(bucket.objects, StoragePath(), fault))
      ensures fault.None? ==> r.Success?
    {
      var fetched := bucket.GetBytes(StoragePath(), fault);
      match fetched
      case Success(data) =>
        r := Success(Some(data));
      case Failure(e) =>
        if e.code == ObjectNotFound {
          r := Success(None);
        } else {
          r := Failure(e);
        }
    }

    /** Registers a watch with a fresh token `lastGcsUpdatedAt = null` of its
        own; the registration is kept in the single `unsubscribe` field,
        replacing any earlier one without cancelling it. */
    method Subscribe() returns (subscription: HybridSubscription)
      modifies this`unsubscribe
      ensures fresh(subscription) && fresh(subscription.listener)
      ensures subscription.owner == this && subscription.listener.active
      ensures subscription.lastGcsUpdatedAt == Some(Null)
      ensures unsubscribe == Some(subscription.listener)
    {
      subscription := new HybridSubscription(this);
      unsubscribe := Some(subscription.listener);
    }

    /** Cancels the registered watch, if any, and clears the field, so a second
        call does nothing. The function `subscribe` returns runs the same statements. */
    method Destroy()
      modifies this`unsubscribe, Held(unsubscribe)
      ensures unsubscribe == None
      ensures old(unsubscribe).Some? ==> !old(unsubscribe).value.active
    {
      if unsubscribe.Some? {
        unsubscribe.value.Unsubscribe();
        unsubscribe := None;
      }
    }

    /** `getCurrentStorageType()`: the strategy of the last save that completed. */
    function GetCurrentStorageType(): (t: StorageType)
      reads this
      ensures t != Hybrid
    {
      currentStorageType
    }
  }

  /** One registration made by `HybridStorage.Subscribe`, with the change token its handler captures. */
  class HybridSubscription {
    const owner: HybridStorage
    const listener: Listener
    var lastGcsUpdatedAt: Option<Value>

    constructor (owner: HybridStorage)
      ensures this.owner == owner && fresh(listener) && listener.active
      ensures lastGcsUpdatedAt == Some(Null)
    {
      this.owner := owner;
      listener := new Listener();
      lastGcsUpdatedAt := Some(Null);
    }

    /** One delivery of the watch: updates the token and reports the download and the callback. */
    method OnSnapshot(snapshot: Option<Record>, fault: Option<FirebaseError>) returns (fetched: bool, delivery: Delivery<seq<byte>>)
      modifies this`lastGcsUpdatedAt
      ensures var s := HandleSnapshot(old(lastGcsUpdatedAt), snapshot, Fetch(owner.bucket.objects, owner.StoragePath(), fault));
              lastGcsUpdatedAt == s.last && fetched == s.fetched && delivery == s.delivery
    {
      fetched, delivery := false, Silent;
      if snapshot.Some? {
        var rec := snapshot.value;
        if PointsToBlob(rec) {
          var token := Field(rec, "gcsUpdatedAt");
          if !StrictEquals(token, lastGcsUpdatedAt) {
            lastGcsUpdatedAt := token;
            fetched := true;
            var loaded := owner.LoadFromGcs(fault);
            if loaded.Success? && loaded.value.Some? {
              delivery := Callback(loaded.value);
            }
          }
        } else if Truthy(Field(rec, "content")) {
          lastGcsUpdatedAt := Some(Null);
          if rec["content"].Bytes? {
            delivery := Callback(Some(rec["content"].data));
          }
        }
      }
    }
  }

  /** Tokens are per subscription: a second subscription starts from null even
      after the first has recorded a token. The field holds only the second
      registration, so `Destroy` (or either returned function) cancels the second
      and the first keeps running. */
  method SecondSubscribeReplacesFirst(storage: HybridStorage, rec: Record)
    returns (first: HybridSubscription, second: HybridSubscription)
    requires PointsToBlob(rec) && "gcsUpdatedAt" in rec && rec["gcsUpdatedAt"].Str?
    modifies storage`unsubscribe
    ensures first.listener.active && !second.listener.active && storage.unsubscribe == None
    ensures first.lastGcsUpdatedAt == Some(rec["gcsUpdatedAt"]) && second.lastGcsUpdatedAt == Some(Null)
  {
    first := storage.Subscribe();
    var fetched, delivery := first.OnSnapshot(Some(rec), None);
    second := storage.Subscribe();
    storage.Destroy();
  }
}
