/**
 The document-database backend (`FirestoreStorage`): the document state is
 stored inline in the metadata record, and subscribers receive it from the
 record's `content` field. `load` deliberately returns nothing.
 */
module FirestoreBackend {
  import opened Wrappers
  import opened Firebase
  import opened StorageTypes

  /** The default `docMapper`: `(bytes) => ({content: bytes})`. */
  function DefaultMapper(data: seq<byte>): (r: Record)
    ensures r.Keys == {"content"}
    ensures r["content"] == Bytes(data)
  {
    map["content" := Bytes(data)]
  }

  /** `options.docMapper || default`. */
  function ResolveMapper(option: Option<seq<byte> -> Record>): (m: seq<byte> -> Record)
    ensures option.Some? ==> m == option.value
    ensures option.None? ==> m == DefaultMapper && m([]) == map["content" := Bytes([])]
  {
    if option.Some? then option.value else DefaultMapper
  }

  /** The snapshot handler of `subscribe`: an existing record with truthy
      `content` has it converted with `toUint8Array()` and passed on. Only a
      `Bytes` value converts; any other truthy value makes the conversion throw
      inside the handler, so nothing is delivered. */
  function HandleSnapshot(snapshot: Option<Record>): (d: Delivery<seq<byte>>)
    ensures d.Callback? <==> snapshot.Some? && "content" in snapshot.value && snapshot.value["content"].Bytes?
    ensures d.Callback? ==> d.data == Some(snapshot.value["content"].data)
  {
    if snapshot.Some? && Truthy(Field(snapshot.value, "content")) then
      match snapshot.value["content"]
      case Bytes(data) => Callback(Some(data))
      case _ => Silent
    else
      Silent
  }

  /** Saving with the default mapper and then observing the record delivers
      exactly the saved bytes, whatever the record held before. */
  lemma RoundTrip(prior: Option<Record>, data: seq<byte>)
    ensures HandleSnapshot(Some(Merge(prior, DefaultMapper(data)))) == Callback(Some(data))
  {
  }

  /** A present but empty `Bytes` content is truthy, so it is delivered too. */
  lemma EmptyContentIsDelivered(rec: Record)
    requires "content" in rec && rec["content"] == Bytes([])
    ensures HandleSnapshot(Some(rec)) == Callback(Some([]))
  {
  }

  /** A missing document, or a record whose `content` is absent or null, is never delivered. */
  lemma NoContentIsSilent(snapshot: Option<Record>)
    requires snapshot.Some? ==> Field(snapshot.value, "content") in {None, Some(Null)}
    ensures HandleSnapshot(snapshot) == Silent
  {
  }

  /** A mapper that does not produce `content` writes records the handler never
      delivers, unless `content` was already there. */
  lemma MapperWithoutContentIsNotDelivered(prior: Option<Record>, mapper: seq<byte> -> Record, data: seq<byte>)
    requires "content" !in mapper(data)
    requires prior.Some? ==> "content" !in prior.value
    ensures HandleSnapshot(Some(Merge(prior, mapper(data)))) == Silent
  {
  }

  class FirestoreStorage {
    const db: Firestore
    const documentPath: string
    const docMapper: seq<byte> -> Record
    var unsubscribe: Option<Listener>

    constructor (db: Firestore, documentPath: string, docMapper: Option<seq<byte> -> Record>)
      ensures this.db == db && this.documentPath == documentPath
      ensures this.docMapper == ResolveMapper(docMapper)
      ensures unsubscribe == None
    {
      this.db := db;
      this.documentPath := documentPath;
      this.docMapper := ResolveMapper(docMapper);
      unsubscribe := None;
    }

    /** Merges `docMapper(data)` into the record; every field the mapper does
        not produce keeps its value. */
    method Save(data: seq<byte>, fault: Option<FirebaseError>) returns (r: Outcome<FirebaseError>)
      modifies db
      ensures fault.Some? ==> r == Fail(fault.value) && db.docs == old(db.docs)
      ensures fault.None? ==> r == Pass && db.docs == old(db.docs)[documentPath := Merge(old(db.Snapshot(documentPath)), docMapper(data))]
    {
      r := db.SetDoc(documentPath, docMapper(data), fault);
    }

    /** Delivery is left to the subscription: `load` always settles to null. */
    method Load() returns (r: Result<Option<seq<byte>>, FirebaseError>)
      ensures r == Success(None)
    {
      r := Success(None);
    }

    /** Registers a watch on the record; the registration is kept in the single
        `unsubscribe` field, replacing any earlier one without cancelling it. */
    method Subscribe() returns (registration: Listener)
      modifies this`unsubscribe
      ensures fresh(registration) && registration.active
      ensures unsubscribe == Some(registration)
    {
      registration := new Listener();
      unsubscribe := Some(registration);
    }

    /** Cancels the registered watch, if any, and clears the field, so a second
        call does nothing. The function `subscribe` returns runs the same statements. */
    method Destroy()
      modifies this`unsubscribe, Held(unsubscribe)
      ensures unsubscribe == None
      ensures old(unsubscribe).Some? ==> !old(unsubscribe).value.active
    {
      if unsubscribe.Some? {
        unsubscribe.value.Unsubscribe();
        unsubscribe := None;
      }
    }
  }
}
