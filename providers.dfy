/**
 The `StorageProvider` contract: every backend offers `save`, `load`,
 `subscribe` and `destroy`, and callers hold a provider without knowing which
 backend it is. The three backends form a closed choice here, and each
 operation dispatches to the backend's own method.
 */
module Providers {
  import opened Wrappers
  import opened Firebase
  import opened StorageTypes
  import FirestoreBackend
  import GcsBackend
  import HybridBackend

  datatype Provider =
    | FirestoreProvider(direct: FirestoreBackend.FirestoreStorage)
    | GcsProvider(blob: GcsBackend.GcsStorage)
    | HybridProvider(hybrid: HybridBackend.HybridStorage)

  /** The storage type a provider implements. */
  function Kind(p: Provider): (t: StorageType)
    ensures t == Firestore <==> p.FirestoreProvider?
    ensures t == Gcs <==> p.GcsProvider?
    ensures t == Hybrid <==> p.HybridProvider?
  {
    match p
    case FirestoreProvider(_) => Firestore
    case GcsProvider(_) => Gcs
    case HybridProvider(_) => Hybrid
  }

  /** The provider object itself, which holds the `unsubscribe` field. */
  function Holder(p: Provider): set<object> {
    match p
    case FirestoreProvider(s) => {s}
    case GcsProvider(s) => {s}
    case HybridProvider(s) => {s}
  }

  /** Everything a save may write: the record database, the bucket when the
      backend uses one, and the provider's own state. */
  function Writes(p: Provider): set<object> {
    match p
    case FirestoreProvider(s) => {s.db}
    case GcsProvider(s) => {s.db, s.bucket}
    case HybridProvider(s) => {s, s.db, s.bucket}
  }

  /** The registration `destroy` would cancel. */
  function Registration(p: Provider): Option<Listener>
    reads Holder(p)
  {
    match p
    case FirestoreProvider(s) => s.unsubscribe
    case GcsProvider(s) => s.unsubscribe
    case HybridProvider(s) => s.unsubscribe
  }

  /** `save(data)`: settles once every step succeeded, and a rejection carries
      the error of the step that failed. `now` and `stamp` are the client clock
      and the server timestamp a backend may record. */
  method Save(p: Provider, data: seq<byte>, now: string, stamp: nat, uploadFault: Option<FirebaseError>, writeFault: Option<FirebaseError>)
    returns (r: Outcome<FirebaseError>)
    modifies Writes(p)
    ensures uploadFault.None? && writeFault.None? ==> r == Pass
    ensures r.Fail? ==> Some(r.error) == uploadFault || Some(r.error) == writeFault
    ensures p.FirestoreProvider? ==> (r == Pass <==> writeFault.None?)
  {
    match p
    case FirestoreProvider(s) =>
      r := s.Save(data, writeFault);
    case GcsProvider(s) =>
      r := s.Save(data, stamp, uploadFault, writeFault);
    case HybridProvider(s) =>
      r := s.Save(data, now, uploadFault, writeFault);
  }

  /** `load()`: null when nothing is found, never a failure for a missing
      object; only the blob backend reads anything, the other two always settle
      to null. */
  method Load(p: Provider, fault: Option<FirebaseError>) returns (r: Result<Option<seq<byte>>, FirebaseError>)
    ensures !p.GcsProvider? ==> r == Success(None)
    ensures fault.None? ==> r.Success?
    ensures r.Success? && r.value.Some? ==>
              p.GcsProvider? && p.blob.StoragePath() in p.blob.bucket.objects && r.value.value == p.blob.bucket.objects[p.blob.StoragePath()]
    ensures p.GcsProvider? && fault.None? && p.blob.StoragePath() !in p.blob.bucket.objects ==> r == Success(None)
  {
    match p
    case FirestoreProvider(s) =>
      r := s.Load();
    case GcsProvider(s) =>
      r := s.Load(fault);
    case HybridProvider(s) =>
      r := s.Load();
  }

  /** `subscribe(callback)`: registers a watch and remembers it as the one to cancel. */
  method Subscribe(p: Provider) returns (registration: Listener)
    modifies Holder(p)
    ensures fresh(registration) && registration.active
    ensures Registration(p) == Some(registration)
  {
    match p
    case FirestoreProvider(s) =>
      registration := s.Subscribe();
    case GcsProvider(s) =>
      registration := s.Subscribe();
    case HybridProvider(s) =>
      var subscription := s.Subscribe();
      registration := subscription.listener;
  }

  /** `destroy()`: cancels the remembered watch, if any; a second call does nothing. */
  method Destroy(p: Provider)
    modifies Holder(p), Held(Registration(p))
    ensures Registration(p) == None
    ensures old(Registration(p)).Some? ==> !old(Registration(p)).value.active
  {
    match p
    case FirestoreProvider(s) =>
      s.Destroy();
    case GcsProvider(s) =>
      s.Destroy();
    case HybridProvider(s) =>
      s.Destroy();
  }
}
