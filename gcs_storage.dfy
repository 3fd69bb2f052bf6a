/**
 The blob backend (`GcsStorage`): the document state is stored as one blob
 object, and the metadata record only carries a pointer and a change token
 that wake subscribers up. Every wake-up re-downloads the blob.
 */
module GcsBackend {
  import opened Wrappers
  import opened Firebase
  import opened StorageTypes

  /** `${gcsPath}/${documentPath}.yjs`: the prefix and a slash, the document
      path, then the `.yjs` suffix; the document path can be read back out. */
  function BlobPath(prefix: string, documentPath: string): (p: string)
    ensures |p| == |prefix| + |documentPath| + 5
    ensures p[..|prefix| + 1] == prefix + "/"
    ensures p[|prefix| + 1..|p| - 4] == documentPath
    ensures p[|p| - 4..] == ".yjs"
  {
    prefix + "/" + documentPath + ".yjs"
  }

  /** Under one prefix, distinct documents never share a blob object. */
  lemma BlobPathInjective(prefix: string, d1: string, d2: string)
    requires BlobPath(prefix, d1) == BlobPath(prefix, d2)
    ensures d1 == d2
  {
    var p := BlobPath(prefix, d1);
    assert d1 == p[|prefix| + 1..|p| - 4];
  }

  /** The `try`/`catch` around `getBytes`: the downloaded bytes, null when the
      object is not found, and any other error rethrown unchanged. */
  function ReadBlob(fetch: Result<seq<byte>, FirebaseError>): (r: Result<Option<seq<byte>>, FirebaseError>)
    ensures r.Success? && r.value.Some? <==> fetch.Success?
    ensures fetch.Success? ==> r.value.value == fetch.value
    ensures r == Success(None) <==> fetch.Failure? && fetch.error.code == ObjectNotFound
    ensures r.Failure? ==> fetch.Failure? && r.error == fetch.error && r.error.code != ObjectNotFound
  {
    match fetch
    case Success(data) => Success(Some(data))
    case Failure(e) => if e.code == ObjectNotFound then Success(None) else Failure(e)
  }

  /** The metadata `save` merges after the upload: the pointer, the server
      timestamp and the `"gcs"` tag, and nothing else. */
  function PointerFields(path: string, stamp: nat): (r: Record)
    ensures r.Keys == {"gcsPath", "gcsUpdatedAt", "storageType"}
    ensures r["gcsPath"] == Str(path) && r["gcsUpdatedAt"] == Timestamp(stamp)
    ensures r["storageType"] == Str(Name(Gcs))
  {
    map["gcsPath" := Str(path), "gcsUpdatedAt" := Timestamp(stamp), "storageType" := Str("gcs")]
  }

  /** The pointer merge leaves every other field, `content` included, as it was. */
  lemma PointerMergeKeepsOtherFields(prior: Record, path: string, stamp: nat, key: string)
    requires key !in {"gcsPath", "gcsUpdatedAt", "storageType"}
    ensures Field(Merge(Some(prior), PointerFields(path, stamp)), key) == Field(prior, key)
  {
  }

  /** What the snapshot handler of `subscribe` did with one delivery. */
  datatype GcsStep = GcsStep(fetched: bool, delivery: Delivery<seq<byte>>)

  /** The snapshot handler: an existing record with a truthy `gcsPath` triggers
      `load()`; its result is forwarded even when it is null, and a rejected
      `load()` is logged with no callback. No change token is consulted. */
  function HandleSnapshot(snapshot: Option<Record>, fetch: Result<seq<byte>, FirebaseError>): (r: GcsStep)
    ensures r.fetched <==> snapshot.Some? && Truthy(Field(snapshot.value, "gcsPath"))
    ensures r.delivery.Callback? <==> r.fetched && ReadBlob(fetch).Success?
    ensures r.delivery.Callback? ==> r.delivery.data == ReadBlob(fetch).value
  {
    if snapshot.Some? && Truthy(Field(snapshot.value, "gcsPath")) then
      match ReadBlob(fetch)
      case Success(data) => GcsStep(true, Callback(data))
      case Failure(_) => GcsStep(true, Silent)
    else
      GcsStep(false, Silent)
  }

  /** The handler applied to every delivery of a watch, in order. */
  function Trace(events: seq<Event>): (steps: seq<GcsStep>)
    ensures |steps| == |events|
    ensures forall i :: 0 <= i < |events| ==> steps[i] == HandleSnapshot(events[i].snapshot, events[i].fetch)
  {
    if events == [] then []
    else [HandleSnapshot(events[0].snapshot, events[0].fetch)] + Trace(events[1..])
  }

  /** The number of downloads a run of steps performed. */
  function FetchCount(steps: seq<GcsStep>): nat {
    if steps == [] then 0 else (if steps[0].fetched then 1 else 0) + FetchCount(steps[1..])
  }

  /** No deduplication: every delivery of a record that carries a pointer
      downloads the blob again, so n such deliveries cost n downloads. */
  lemma {:induction false} EverySnapshotFetches(events: seq<Event>)
    requires forall i :: 0 <= i < |events| ==> events[i].snapshot.Some? && Truthy(Field(events[i].snapshot.value, "gcsPath"))
    ensures FetchCount(Trace(events)) == |events|
  {
    if events != [] {
      EverySnapshotFetches(events[1..]);
      assert Trace(events)[1..] == Trace(events[1..]);
    }
  }

  class GcsStorage {
    const db: Firestore
    const bucket: Bucket
    const documentPath: string
    const gcsPath: string
    var unsubscribe: Option<Listener>

    constructor (db: Firestore, bucket: Bucket, documentPath: string, gcsPath: Option<string>)
      ensures this.db == db && this.bucket == bucket && this.documentPath == documentPath
      ensures this.gcsPath == ResolveGcsPath(gcsPath)
      ensures unsubscribe == None
    {
      this.db := db;
      this.bucket := bucket;
      this.documentPath := documentPath;
      this.gcsPath := ResolveGcsPath(gcsPath);
      unsubscribe := None;
    }

    /** `getStoragePath()`. */
    function StoragePath(): (p: string)
      ensures |p| >= 5 && p[|p| - 4..] == ".yjs"
    {
      BlobPath(gcsPath, documentPath)
    }

    /** Uploads the bytes, then merges the pointer metadata. A rejected upload
        stops the save before the record is touched, so the record never points
        at an upload that failed. */
    method Save(data: seq<byte>, stamp: nat, uploadFault: Option<FirebaseError>, writeFault: Option<FirebaseError>)
      returns (r: Outcome<FirebaseError>)
      modifies db, bucket
      ensures uploadFault.Some? ==> r == Fail(uploadFault.value) && bucket.objects == old(bucket.objects) && db.docs == old(db.docs)
      ensures uploadFault.None? ==> bucket.objects == old(bucket.objects)[StoragePath() := data]
      ensures uploadFault.None? && writeFault.Some? ==> r == Fail(writeFault.value) && db.docs == old(db.docs)
      ensures uploadFault.None? && writeFault.None? ==>
        r == Pass && db.docs == old(db.docs)[documentPath := Merge(old(db.Snapshot(documentPath)), PointerFields(StoragePath(), stamp))]
      ensures db.docs != old(db.docs) ==> StoragePath() in bucket.objects && bucket.objects[StoragePath()] == data
    {
      r := bucket.UploadBytes(StoragePath(), data, uploadFault);
      if r.Fail? {
        return;
      }
      r := db.SetDoc(documentPath, PointerFields(StoragePath(), stamp), writeFault);
    }

    /** Downloads the blob at the storage path; not found settles to null. */
    method Load(fault: Option<FirebaseError>) returns (r: Result<Option<seq<byte>>, FirebaseError>)
      ensures r == ReadBlob(Fetch(bucket.objects, StoragePath(), fault))
      ensures fault.None? && StoragePath() !in bucket.objects ==> r == Success(None)
      ensures fault.None? && StoragePath() in bucket.objects ==> r == Success(Some(bucket.objects[StoragePath()]))
    {
      var fetched := bucket.GetBytes(StoragePath(), fault);
      match fetched
      case Success(data) =>
        r := Success(Some(data));
      case Failure(e) =>
        if e.code == ObjectNotFound {
          r := Success(None);
        } else {
          r := Failure(e);
        }
    }

    /** The snapshot handler as the watch runs it, downloading through `Load`. */
    method OnSnapshot(snapshot: Option<Record>, fault: Option<FirebaseError>) returns (step: GcsStep)
      ensures step == HandleSnapshot(snapshot, Fetch(bucket.objects, StoragePath(), fault))
    {
      step := GcsStep(false, Silent);
      if snapshot.Some? && Truthy(Field(snapshot.value, "gcsPath")) {
        var loaded := Load(fault);
        step := GcsStep(true, if loaded.Success? then Callback(loaded.value) else Silent);
      }
    }

    /** Registers a watch on the record; the registration is kept in the single
        `unsubscribe` field, replacing any earlier one without cancelling it. */
    method Subscribe() returns (registration: Listener)
      modifies this`unsubscribe
      ensures fresh(registration) && registration.active
      ensures unsubscribe == Some(registration)
    {
      registration := new Listener();
      unsubscribe := Some(registration);
    }

    /** Cancels the registered watch, if any, and clears the field, so a second
        call does nothing. The function `subscribe` returns runs the same statements. */
    method Destroy()
      modifies this`unsubscribe, Held(unsubscribe)
      ensures unsubscribe == None
      ensures old(unsubscribe).Some? ==> !old(unsubscribe).value.active
    {
      if unsubscribe.Some? {
        unsubscribe.value.Unsubscribe();
        unsubscribe := None;
      }
    }
  }

  /** After a save that succeeded and no other write, a load returns the saved bytes. */
  method SaveThenLoad(storage: GcsStorage, data: seq<byte>, stamp: nat) returns (r: Result<Option<seq<byte>>, FirebaseError>)
    modifies storage.db, storage.bucket
    ensures r == Success(Some(data))
  {
    var saved := storage.Save(data, stamp, None, None);
    r := storage.Load(None);
  }
}
