/**
 The shared vocabulary of the storage backends: the storage type names, the
 default configuration, the callback argument of `subscribe`, and the way the
 backends fill in an option that was left out.
 */
module StorageTypes {
  import opened Wrappers

  /** `"firestore" | "gcs" | "hybrid"`. */
  datatype StorageType = Firestore | Gcs | Hybrid

  /** The string each storage type is written as. */
  function Name(t: StorageType): (s: string)
    ensures s != ""
  {
    match t
    case Firestore => "firestore"
    case Gcs => "gcs"
    case Hybrid => "hybrid"
  }

  /** The storage type a string names, if any: exactly the three names are accepted. */
  function Parse(s: string): (t: Option<StorageType>)
    ensures t.Some? <==> s == "firestore" || s == "gcs" || s == "hybrid"
    ensures t.Some? ==> Name(t.value) == s
  {
    if s == "firestore" then Some(Firestore)
    else if s == "gcs" then Some(Gcs)
    else if s == "hybrid" then Some(Hybrid)
    else None
  }

  /** Names and parsing are inverse, so no two storage types share a name. */
  lemma ParseName(t: StorageType)
    ensures Parse(Name(t)) == Some(t)
  {
  }

  /** `Required<StorageConfig>`: a storage type, the hybrid threshold in bytes and the blob path prefix. */
  datatype StorageConfig = StorageConfig(kind: StorageType, hybridThreshold: int, gcsPath: string)

  /** `DEFAULT_STORAGE_CONFIG`. */
  const DefaultStorageConfig: StorageConfig := StorageConfig(Firestore, 900 * 1024, "yjs-documents")

  /** The defaults: the document database, a 900 KiB threshold and the `yjs-documents` prefix. */
  lemma DefaultsAsDocumented()
    ensures DefaultStorageConfig.kind == Firestore
    ensures DefaultStorageConfig.hybridThreshold == 921600
    ensures DefaultStorageConfig.gcsPath == "yjs-documents"
  {
  }

  /** `options.hybridThreshold || DEFAULT_STORAGE_CONFIG.hybridThreshold`: a
      missing or zero (falsy) threshold falls back to the default, any other
      number is kept as given. */
  function ResolveThreshold(option: Option<int>): (t: int)
    ensures t != 0
    ensures option.None? || option == Some(0) ==> t == 921600
    ensures option.Some? && option.value != 0 ==> t == option.value
  {
    if option.None? || option.value == 0 then DefaultStorageConfig.hybridThreshold else option.value
  }

  /** `options.gcsPath || "yjs-documents"`: a missing or empty (falsy) prefix
      falls back to the default, any other string is kept as given. */
  function ResolveGcsPath(option: Option<string>): (p: string)
    ensures p != ""
    ensures option.None? || option == Some("") ==> p == "yjs-documents"
    ensures option.Some? && option.value != "" ==> p == option.value
  {
    if option.None? || option.value == "" then DefaultStorageConfig.gcsPath else option.value
  }

  /** What one snapshot delivery does with the `subscribe` callback: nothing, or
      one call with `Uint8Array | null`. */
  datatype Delivery<T> = Silent | Callback(data: Option<T>)
}
