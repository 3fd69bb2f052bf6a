/**
 Abstract stand-ins for the two Firebase services the storage backends use: a
 document database whose records are merged field by field (`setDoc` with
 `{merge: true}`, `onSnapshot`) and a blob bucket addressed by path
 (`uploadBytes`, `getBytes`). Only what the backends rely on is modelled.
 Failures of the services (network, permissions, size limits) are not decided
 here: every operation that can fail takes the fault it should report as a
 parameter, so that callers can be proved correct for every outcome.
 */
module Firebase {
  import opened Wrappers

  /** One element of a `Uint8Array`. */
  newtype byte = b: int | 0 <= b < 256

  /** The field values the backends read or write in a metadata record.
      `Bytes` and `Timestamp` are objects in the SDK; `Null` and `Str` are primitives. */
  datatype Value = Null | Str(text: string) | Bytes(data: seq<byte>) | Timestamp(stamp: nat)

  /** A metadata record: field name to value. */
  type Record = map<string, Value>

  /** A failure reported by either service, identified by its `code`. */
  datatype FirebaseError = FirebaseError(code: string)

  /** The code the blob service reports for a download of a missing object. */
  const ObjectNotFound: string := "storage/object-not-found"

  /** Property access on a snapshot's data; None stands for `undefined`. */
  function Field(rec: Record, key: string): (v: Option<Value>)
    ensures v.Some? <==> key in rec
    ensures key in rec ==> v.value == rec[key]
  {
    if key in rec then Some(rec[key]) else None
  }

  /** JavaScript truthiness of a field value: `undefined`, `null` and the empty
      string are falsy; every object, an empty `Bytes` included, is truthy. */
  predicate Truthy(v: Option<Value>) {
    match v
    case None => false
    case Some(Null) => false
    case Some(Str(s)) => s != ""
    case Some(Bytes(_)) => true
    case Some(Timestamp(_)) => true
  }

  /** Values that `===` compares by value rather than by identity. */
  predicate IsPrimitive(v: Option<Value>) {
    v.None? || v.value.Null? || v.value.Str?
  }

  /** JavaScript `===` between two field values read from snapshots. Objects are
      compared by identity, and every snapshot decodes fresh `Bytes` and
      `Timestamp` objects, so two such values never compare equal. */
  predicate StrictEquals(a: Option<Value>, b: Option<Value>) {
    IsPrimitive(a) && a == b
  }

  /** Between values decoded from two different snapshots, `===` holds of a
      value and an equal one exactly when the value is a primitive (`Bytes` and
      `Timestamp` values from two snapshots are never `===`); it is symmetric
      and implies equality. */
  lemma StrictEqualsFacts(a: Option<Value>, b: Option<Value>)
    ensures StrictEquals(a, a) <==> IsPrimitive(a)
    ensures StrictEquals(a, b) <==> StrictEquals(b, a)
    ensures StrictEquals(a, b) ==> a == b
  {
  }

  /** The record after `setDoc(ref, fields, {merge: true})` on a document whose
      current record is `prior` (None when it does not exist): every written
      field takes its new value and every other field keeps its old one. */
  function Merge(prior: Option<Record>, fields: Record): (r: Record)
    ensures r.Keys == fields.Keys + (if prior.Some? then prior.value.Keys else {})
    ensures forall k :: k in fields ==> r[k] == fields[k]
    ensures forall k :: prior.Some? && k in prior.value && k !in fields ==> r[k] == prior.value[k]
  {
    (if prior.Some? then prior.value else map[]) + fields
  }

  /** What `getBytes` settles to for `path`: the stored bytes, the injected fault
      when there is one, and otherwise the not-found error. */
  function Fetch(objects: map<string, seq<byte>>, path: string, fault: Option<FirebaseError>)
    : (r: Result<seq<byte>, FirebaseError>)
    ensures r.Success? <==> fault.None? && path in objects
    ensures r.Success? ==> r.value == objects[path]
    ensures fault.Some? ==> r == Failure(fault.value)
    ensures fault.None? && path !in objects ==> r == Failure(FirebaseError(ObjectNotFound))
  {
    if fault.Some? then Failure(fault.value)
    else if path in objects then Success(objects[path])
    else Failure(FirebaseError(ObjectNotFound))
  }

  /** One delivery of the document watch: the record as the snapshot shows it
      (None when the document does not exist) and what a blob download issued
      while handling it would settle to. */
  datatype Event = Event(snapshot: Option<Record>, fetch: Result<seq<byte>, FirebaseError>)

  /** The document database: one record per document path. */
  class Firestore {
    var docs: map<string, Record>

    constructor ()
      ensures docs == map[]
    {
      docs := map[];
    }

    /** The record a snapshot of `path` shows; None when the document does not exist. */
    function Snapshot(path: string): (s: Option<Record>)
      reads this
      ensures s.Some? <==> path in docs
      ensures s.Some? ==> s.value == docs[path]
    {
      if path in docs then Some(docs[path]) else None
    }

    /** `setDoc(doc(db, path), fields, {merge: true})`; with a fault it is
        rejected and the database is left as it was. */
    method SetDoc(path: string, fields: Record, fault: Option<FirebaseError>) returns (r: Outcome<FirebaseError>)
      modifies this
      ensures fault.Some? ==> r == Fail(fault.value) && docs == old(docs)
      ensures fault.None? ==> r == Pass && docs == old(docs)[path := Merge(old(Snapshot(path)), fields)]
    {
      if fault.Some? {
        return Fail(fault.value);
      }
      docs := docs[path := Merge(Snapshot(path), fields)];
      r := Pass;
    }
  }

  /** The blob bucket: one object per path. */
  class Bucket {
    var objects: map<string, seq<byte>>

    constructor ()
      ensures objects == map[]
    {
      objects := map[];
    }

    /** `uploadBytes(ref(storage, path), data)`: creates or overwrites the object;
        with a fault it is rejected and the bucket is left as it was. */
    method UploadBytes(path: string, data: seq<byte>, fault: Option<FirebaseError>) returns (r: Outcome<FirebaseError>)
      modifies this
      ensures fault.Some? ==> r == Fail(fault.value) && objects == old(objects)
      ensures fault.None? ==> r == Pass && objects == old(objects)[path := data]
    {
      if fault.Some? {
        return Fail(fault.value);
      }
      objects := objects[path := data];
      r := Pass;
    }

    /** `getBytes(ref(storage, path))`. */
    method GetBytes(path: string, fault: Option<FirebaseError>) returns (r: Result<seq<byte>, FirebaseError>)
      ensures r == Fetch(objects, path, fault)
    {
      if fault.Some? {
        r := Failure(fault.value);
      } else if path in objects {
        r := Success(objects[path]);
      } else {
        r := Failure(FirebaseError(ObjectNotFound));
      }
    }
  }

  /** A registration made by `onSnapshot`; `Unsubscribe` is the function it returns. */
  class Listener {
    var active: bool

    constructor ()
      ensures active
    {
      active := true;
    }

    method Unsubscribe()
      modifies this
      ensures !active
    {
      active := false;
    }
  }

  /** The listeners an `unsubscribe` slot holds: the one registration, or none. */
  function Held(slot: Option<Listener>): set<Listener> {
    if slot.Some? then {slot.value} else {}
  }
}
