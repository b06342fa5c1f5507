/**
 * `GcloudStorageFileCollector`: reads its bucket settings from the
 * environment, creates its Cloud Storage client on first use, downloads an
 * object's metadata and bytes, and turns the bytes into text or keeps them
 * as bytes according to the recorded content type.
 */
module GcloudFileCollector {
  import opened Common

  const BucketKey := "GCLOUD_STORAGE_BUCKET_PRIVATE_NAME"
  const ProjectKey := "GCLOUD_PROJECT_ID"
  const CredentialsKey := "GCLOUD_STORAGE_CREDENTIALS"

  /** The message of the KeyError raised for a missing environment variable. */
  function MissingEnv(key: string): string
  {
    "required env var: \"" + key + "\" not set"
  }

  datatype Settings = Settings(bucket: string, project: string, credentialsFile: string)

  /** The three lookups of the constructor, in order; the first missing key is reported. */
  function ReadSettings(env: map<string, string>): (r: Result<Settings>)
    ensures r.Ok? <==> BucketKey in env && ProjectKey in env && CredentialsKey in env
    ensures r.Ok? ==> r.value == Settings(env[BucketKey], env[ProjectKey], env[CredentialsKey])
    ensures BucketKey !in env ==> r == Err(KeyError(MissingEnv(BucketKey)))
    ensures BucketKey in env && ProjectKey !in env ==> r == Err(KeyError(MissingEnv(ProjectKey)))
    ensures BucketKey in env && ProjectKey in env && CredentialsKey !in env
            ==> r == Err(KeyError(MissingEnv(CredentialsKey)))
  {
    if BucketKey !in env then Err(KeyError(MissingEnv(BucketKey)))
    else if ProjectKey !in env then Err(KeyError(MissingEnv(ProjectKey)))
    else if CredentialsKey !in env then Err(KeyError(MissingEnv(CredentialsKey)))
    else Ok(Settings(env[BucketKey], env[ProjectKey], env[CredentialsKey]))
  }

  /** `Storage(service_file=...)`: the client, known only by its credentials file. */
  datatype StorageClient = StorageClient(serviceFile: string)

  /**
   * The storage service, opaque: for a bucket and an object name,
   * `download_metadata` gives the object's `contentType` entry (`None` when
   * the metadata has none) and `download` its bytes; either may fail.
   */
  datatype Storage = Storage(
    contentType: (string, string) -> Result<Option<string>>,
    download: (string, string) -> Result<seq<byte>>)

  /** UTF-8 decoding, opaque: `None` for byte strings that are not valid UTF-8. */
  type Utf8Decoder = seq<byte> -> Option<string>

  const TextTypes: set<string> :=
    {"text/html", "text/html; charset=utf-8", "text/plain; charset=utf-8", "text/plain"}
  const BinaryTypes: set<string> := {"application/octet-stream", "application/pdf"}

  function UnknownType(contentType: string): string
  {
    "Do not know how to handle contentType: \"" + contentType + "\""
  }

  /**
   * The content-type decision, by exact string match: the four text types
   * are decoded as UTF-8, the two binary types keep the bytes, every other
   * type is a TypeError naming it.
   */
  function Classify(contentType: string, data: seq<byte>, utf8: Utf8Decoder): (r: Result<Value>)
    ensures contentType in TextTypes && utf8(data).Some? ==> r == Ok(Str(utf8(data).value))
    ensures contentType in TextTypes && utf8(data).None? ==> r == Err(UnicodeDecodeError)
    ensures contentType in BinaryTypes ==> r == Ok(Bytes(data))
    ensures contentType !in TextTypes && contentType !in BinaryTypes
            ==> r == Err(TypeError(UnknownType(contentType)))
    ensures r.Ok? ==> r.value.Str? || r.value == Bytes(data)
  {
    if contentType in TextTypes then
      match utf8(data)
      case Some(text) => Ok(Str(text))
      case None => Err(UnicodeDecodeError)
    else if contentType in BinaryTypes then Ok(Bytes(data))
    else Err(TypeError(UnknownType(contentType)))
  }

  /** Matching is exact: spacing or case variants of a known type, and unknown types, are rejected. */
  lemma ClassifyIsExact(data: seq<byte>, utf8: Utf8Decoder)
    ensures Classify("text/html;charset=utf-8", data, utf8).Err?
    ensures Classify("TEXT/HTML", data, utf8).Err?
    ensures Classify("Application/PDF", data, utf8).Err?
    ensures Classify("image/png", data, utf8) == Err(TypeError(UnknownType("image/png")))
  {
    assert "text/html;charset=utf-8" !in TextTypes + BinaryTypes by {
      assert "text/html;charset=utf-8"[9] == ';' && "text/html; charset=utf-8"[10] == ' ';
    }
    assert "TEXT/HTML"[0] != "text/html"[0];
    assert "Application/PDF"[0] != "application/pdf"[0];
  }

  /**
   * One `collect_file` once the client exists: metadata is awaited before
   * the data, then the `contentType` lookup, then the classification; the
   * first of these to fail is the exception raised. The
   * pair carries the caller's `file_id`, which plays no part in the lookup.
   */
  function Fetch(storage: Storage, utf8: Utf8Decoder, bucket: string, fileName: string, fileId: string)
    : (r: Result<(string, Value)>)
    ensures r.Ok? ==> r.value.0 == fileId
    ensures r.Ok? ==> (storage.contentType(bucket, fileName).Ok?
                       && storage.contentType(bucket, fileName).value.Some?
                       && storage.download(bucket, fileName).Ok?
                       && Classify(storage.contentType(bucket, fileName).value.value,
                                   storage.download(bucket, fileName).value, utf8) == Ok(r.value.1))
    ensures r.Ok? <==> (storage.contentType(bucket, fileName).Ok?
                        && storage.contentType(bucket, fileName).value.Some?
                        && storage.download(bucket, fileName).Ok?
                        && Classify(storage.contentType(bucket, fileName).value.value,
                                    storage.download(bucket, fileName).value, utf8).Ok?)
    ensures storage.contentType(bucket, fileName).Err? ==> r == Err(storage.contentType(bucket, fileName).error)
    ensures storage.contentType(bucket, fileName).Ok? && storage.download(bucket, fileName).Err?
            ==> r == Err(storage.download(bucket, fileName).error)
    ensures storage.contentType(bucket, fileName) == Ok(None) && storage.download(bucket, fileName).Ok?
            ==> r == Err(KeyError("contentType"))
    ensures storage.contentType(bucket, fileName).Ok? && storage.contentType(bucket, fileName).value.Some?
            && storage.download(bucket, fileName).Ok?
            && Classify(storage.contentType(bucket, fileName).value.value,
                        storage.download(bucket, fileName).value, utf8).Err?
            ==> r == Err(Classify(storage.contentType(bucket, fileName).value.value,
                                  storage.download(bucket, fileName).value, utf8).error)
  {
    var meta := storage.contentType(bucket, fileName);
    var data := storage.download(bucket, fileName);
    if meta.Err? then Err(meta.error)
    else if data.Err? then Err(data.error)
    else if meta.value.None? then Err(KeyError("contentType"))
    else
      var content := Classify(meta.value.value, data.value, utf8);
      if content.Err? then Err(content.error) else Ok((fileId, content.value))
  }

  /** The file id only labels the result: two ids fetch the same content and fail alike. */
  lemma FetchIgnoresFileId(storage: Storage, utf8: Utf8Decoder, bucket: string, fileName: string,
                           id1: string, id2: string)
    ensures Fetch(storage, utf8, bucket, fileName, id1).Ok? == Fetch(storage, utf8, bucket, fileName, id2).Ok?
    ensures Fetch(storage, utf8, bucket, fileName, id1).Ok? ==>
              Fetch(storage, utf8, bucket, fileName, id1).value.1
              == Fetch(storage, utf8, bucket, fileName, id2).value.1
    ensures Fetch(storage, utf8, bucket, fileName, id1).Err? ==>
              Fetch(storage, utf8, bucket, fileName, id1).error
              == Fetch(storage, utf8, bucket, fileName, id2).error
  {
  }

  /** The storage field after a call: kept once set, otherwise a new client for the credentials file. */
  function AfterInit(before: Option<StorageClient>, credentialsFile: string): (after: Option<StorageClient>)
    ensures after.Some?
    ensures before.Some? ==> after == before
  {
    if before.Some? then before else Some(StorageClient(credentialsFile))
  }

  class GcloudStorageFileCollector {
    const bucket: string
    const project: string
    const credentialsFile: string
    var storageObject: Option<StorageClient>

    constructor(settings: Settings)
      ensures bucket == settings.bucket && project == settings.project
      ensures credentialsFile == settings.credentialsFile
      ensures storageObject == None
    {
      bucket := settings.bucket;
      project := settings.project;
      credentialsFile := settings.credentialsFile;
      storageObject := None;
    }

    /** `GcloudStorageFileCollector()` reading `os.environ`: a KeyError when a setting is missing. */
    static method Create(env: map<string, string>) returns (r: Result<GcloudStorageFileCollector>)
      ensures r.Ok? <==> ReadSettings(env).Ok?
      ensures r.Err? ==> r.error == ReadSettings(env).error
      ensures r.Ok? ==> fresh(r.value) && r.value.storageObject == None
                        && r.value.bucket == env[BucketKey] && r.value.project == env[ProjectKey]
                        && r.value.credentialsFile == env[CredentialsKey]
    {
      var settings := ReadSettings(env);
      if settings.Err? {
        return Err(settings.error);
      }
      var c := new GcloudStorageFileCollector(settings.value);
      return Ok(c);
    }

    /** `collect_file`: creates the client if there is none yet, then fetches. */
    method CollectFile(storage: Storage, utf8: Utf8Decoder, fileName: string, fileId: string)
      returns (r: Result<(string, Value)>)
      modifies this
      ensures storageObject == AfterInit(old(storageObject), credentialsFile)
      ensures r == Fetch(storage, utf8, bucket, fileName, fileId)
    {
      if storageObject.None? {
        storageObject := Some(StorageClient(credentialsFile));
      }
      r := Fetch(storage, utf8, bucket, fileName, fileId);
    }
  }
}
