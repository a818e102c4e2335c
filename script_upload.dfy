/** The asset "direct upload" and the script publish of src/script-upload.ts:
    negotiating an upload session, sending its buckets one request at a time,
    and composing the request that publishes a worker. */
module ScriptUpload {
  import opened Wrappers
  import opened Util

  // ---------------------------------------------------------------------------
  // Negotiating an upload session

  datatype FileMetadata = FileMetadata(hash: string, size: int)

  /** Asset path (beginning with '/') to the hash and size of its content. */
  type AssetManifest = map<string, FileMetadata>

  /** The `assetUpload.create` request: the manifest, for one worker of a namespace. */
  datatype AssetUploadCall = AssetUploadCall(namespace: string, workerName: string, manifest: AssetManifest)

  /** `createAssetsUpload`: one `assetUpload.create` call carrying the manifest
      unchanged; its reply goes through `required`. */
  function CreateAssetsUpload(namespace: string, workerName: string, manifest: AssetManifest,
                              reply: Result<JsObject, Error>): (out: (AssetUploadCall, Result<JsObject, Error>))
    ensures out.0.namespace == namespace && out.0.workerName == workerName && out.0.manifest == manifest
    ensures out.1.Success? <==> reply.Success? && AllDefined(reply.value)
    ensures out.1.Success? ==> out.1.value == reply.value
    ensures reply.Failure? ==> out.1 == reply
  {
    (AssetUploadCall(namespace, workerName, manifest), RequireReply(reply))
  }

  /** An upload session as `uploadAssetsBatch` reads it: the session token and
      the buckets of hashes the platform still wants. */
  datatype UploadInfo = UploadInfo(jwt: string, buckets: seq<seq<string>>)

  function Strings(items: seq<JsValue>): Option<seq<string>>
  {
    if items == [] then Some([])
    else if !items[0].Str? then None
    else match Strings(items[1..])
      case None => None
      case Some(rest) => Some([items[0].s] + rest)
  }

  function StringLists(items: seq<JsValue>): Option<seq<seq<string>>>
  {
    if items == [] then Some([])
    else if !items[0].Arr? then None
    else match (Strings(items[0].items), StringLists(items[1..]))
      case (Some(first), Some(rest)) => Some([first] + rest)
      case _ => None
  }

  /** The negotiation reply read as an upload session: `jwt` a string and
      `buckets` an array of arrays of strings; `None` for any other shape. */
  function ReadUploadInfo(reply: JsObject): Option<UploadInfo>
  {
    match (Get(reply, "jwt"), Get(reply, "buckets"))
    case (Str(jwt), Arr(items)) =>
      (match StringLists(items)
       case Some(buckets) => Some(UploadInfo(jwt, buckets))
       case None => None)
    case _ => None
  }

  // ---------------------------------------------------------------------------
  // Sending the buckets

  /** A file the caller supplies, keyed by its content hash. */
  datatype AssetFile = AssetFile(fileName: string, data: seq<byte>, mimeType: string)

  /** One multipart POST of a bucket: its bearer token, and one part per hash of
      the bucket, in bucket order, holding that hash's file. */
  datatype BatchRequest = BatchRequest(token: string, hashes: seq<string>, files: seq<AssetFile>)

  /** The platform's answer to one bucket request: a non-OK status; an OK
      reply whose body does not parse as JSON, on which `response.json()`
      rejects with a `SyntaxError`; an OK reply whose JSON body is falsy
      (`null`, `false`, `0` or `""`); or an OK reply with a JSON object. An
      absent `result.jwt` is the empty string. */
  datatype BatchReply =
    | HttpFail(status: nat, text: string)
    | Unparsable(message: string)
    | FalsyBody
    | Body(success: bool, jwt: string)

  const UnknownFileHash := "Unknown file hash"
  const UploadRejected := "Failed to upload files"
  const NoCompletionToken := "Should have received completion token"

  function HttpFailure(status: nat, text: string): Error
  {
    PlainError("Failed to upload files (" + NatToString(status) + "): " + text)
  }

  /** A reply after which the loop moves on to the next bucket. */
  predicate Continues(reply: BatchReply)
  {
    reply.FalsyBody? || (reply.Body? && reply.success && reply.jwt == "")
  }

  /** Every hash of the bucket has a file. */
  predicate Known(bucket: seq<string>, filesByHash: map<string, AssetFile>)
  {
    forall i :: 0 <= i < |bucket| ==> bucket[i] in filesByHash
  }

  function Parts(bucket: seq<string>, filesByHash: map<string, AssetFile>): seq<AssetFile>
    requires Known(bucket, filesByHash)
  {
    seq(|bucket|, i requires 0 <= i < |bucket| => filesByHash[bucket[i]])
  }

  /** The request for bucket `i` of the session. */
  function RequestFor(info: UploadInfo, filesByHash: map<string, AssetFile>, i: nat): BatchRequest
    requires i < |info.buckets| && Known(info.buckets[i], filesByHash)
  {
    BatchRequest(info.jwt, info.buckets[i], Parts(info.buckets[i], filesByHash))
  }

  /** The outcome of processing buckets `i..` of the session, and the requests
      sent meanwhile. `replies(k)` is the platform's answer to bucket `k`. */
  function BatchesFrom(info: UploadInfo, filesByHash: map<string, AssetFile>, replies: nat -> BatchReply, i: nat)
    : (Result<string, Error>, seq<BatchRequest>)
    requires i <= |info.buckets|
    decreases |info.buckets| - i
  {
    if i == |info.buckets| then (Failure(PlainError(NoCompletionToken)), [])
    else if !Known(info.buckets[i], filesByHash) then (Failure(PlainError(UnknownFileHash)), [])
    else
      var request := RequestFor(info, filesByHash, i);
      var reply := replies(i);
      if reply.HttpFail? then (Failure(HttpFailure(reply.status, reply.text)), [request])
      else if reply.Unparsable? then (Failure(SyntaxError(reply.message)), [request])
      else if reply.Body? && !reply.success then (Failure(PlainError(UploadRejected)), [request])
      else if reply.Body? && reply.jwt != "" then (Success(reply.jwt), [request])
      else
        var (r, rest) := BatchesFrom(info, filesByHash, replies, i + 1);
        (r, [request] + rest)
  }

  /** What `uploadAssetsBatch` returns or throws, and the requests it sends. */
  function BatchUpload(info: UploadInfo, filesByHash: map<string, AssetFile>, replies: nat -> BatchReply)
    : (Result<string, Error>, seq<BatchRequest>)
  {
    if info.buckets == [] then (Success(info.jwt), []) else BatchesFrom(info, filesByHash, replies, 0)
  }

  /** `uploadAssetsBatch`: with no buckets, the session token; otherwise one
      request per bucket, in order, each authorized with the session token,
      until a reply fails or carries a completion token. */
  method UploadAssetsBatch(uploadInfo: UploadInfo, filesByHash: map<string, AssetFile>, replies: nat -> BatchReply)
    returns (r: Result<string, Error>, sent: seq<BatchRequest>)
    ensures (r, sent) == BatchUpload(uploadInfo, filesByHash, replies)
  {
    if |uploadInfo.buckets| == 0 {
      return Success(uploadInfo.jwt), [];
    }
    sent := [];
    var i := 0;
    assert [] + BatchesFrom(uploadInfo, filesByHash, replies, 0).1 == BatchesFrom(uploadInfo, filesByHash, replies, 0).1;
    while i < |uploadInfo.buckets|
      invariant 0 <= i <= |uploadInfo.buckets|
      invariant var rest := BatchesFrom(uploadInfo, filesByHash, replies, i);
                BatchesFrom(uploadInfo, filesByHash, replies, 0) == (rest.0, sent + rest.1)
    {
      var form := BucketForm(uploadInfo.buckets[i], filesByHash);
      if form.None? {
        assert sent + [] == sent;
        return Failure(PlainError(UnknownFileHash)), sent;
      }
      var request := BatchRequest(uploadInfo.jwt, uploadInfo.buckets[i], form.value);
      ghost var before := sent;
      sent := sent + [request];
      var reply := replies(i);
      if reply.HttpFail? {
        return Failure(HttpFailure(reply.status, reply.text)), sent;
      } else if reply.Unparsable? {
        return Failure(SyntaxError(reply.message)), sent;
      } else if reply.Body? && !reply.success {
        return Failure(PlainError(UploadRejected)), sent;
      } else if reply.Body? && reply.jwt != "" {
        return Success(reply.jwt), sent;
      }
      MovesOn(uploadInfo, filesByHash, replies, i, before);
      i := i + 1;
    }
    r := Failure(PlainError(NoCompletionToken));
    assert sent + [] == sent;
  }

  /** The `bucket.forEach` that builds one form: the file of each hash, in
      bucket order, or `None` where it would throw on a hash without a file. */
  method BucketForm(bucket: seq<string>, filesByHash: map<string, AssetFile>) returns (form: Option<seq<AssetFile>>)
    ensures form.Some? <==> Known(bucket, filesByHash)
    ensures form.Some? ==> form.value == Parts(bucket, filesByHash)
  {
    var parts: seq<AssetFile> := [];
    for j := 0 to |bucket|
      invariant |parts| == j
      invariant forall k :: 0 <= k < j ==> bucket[k] in filesByHash && parts[k] == filesByHash[bucket[k]]
    {
      if bucket[j] !in filesByHash {
        return None;
      }
      parts := parts + [filesByHash[bucket[j]]];
    }
    return Some(parts);
  }

  /** A bucket whose reply lets the loop go on adds its request to those sent
      and leaves the rest of the upload to the next bucket. */
  lemma MovesOn(info: UploadInfo, filesByHash: map<string, AssetFile>, replies: nat -> BatchReply, i: nat, sent: seq<BatchRequest>)
    requires i < |info.buckets| && Known(info.buckets[i], filesByHash) && Continues(replies(i))
    requires var rest := BatchesFrom(info, filesByHash, replies, i);
             BatchesFrom(info, filesByHash, replies, 0) == (rest.0, sent + rest.1)
    ensures var rest := BatchesFrom(info, filesByHash, replies, i + 1);
            BatchesFrom(info, filesByHash, replies, 0) == (rest.0, (sent + [RequestFor(info, filesByHash, i)]) + rest.1)
  {
    var rest := BatchesFrom(info, filesByHash, replies, i + 1);
    var request := RequestFor(info, filesByHash, i);
    assert BatchesFrom(info, filesByHash, replies, i) == (rest.0, [request] + rest.1);
    assert (sent + [request]) + rest.1 == sent + ([request] + rest.1);
  }


  /** The shape of every run from bucket `i`: at most one request per
      remaining bucket, the k-th being bucket `i + k`'s with the session token;
      every reply but the last moved on; a success is the last reply's
      non-empty token. */
  lemma {:induction false} BatchesFromShape(info: UploadInfo, filesByHash: map<string, AssetFile>, replies: nat -> BatchReply, i: nat)
    requires i <= |info.buckets|
    ensures var r := BatchesFrom(info, filesByHash, replies, i).0;
            var sent := BatchesFrom(info, filesByHash, replies, i).1;
      && |sent| <= |info.buckets| - i
      && (forall k :: i <= k < i + |sent| ==>
            Known(info.buckets[k], filesByHash) && sent[k - i] == RequestFor(info, filesByHash, k))
      && (forall k :: i <= k < i + |sent| - 1 ==> Continues(replies(k)))
      && (r.Success? ==> |sent| > 0 && r.value != "" && replies(i + |sent| - 1) == Body(true, r.value))
    decreases |info.buckets| - i
  {
    if i < |info.buckets| && Known(info.buckets[i], filesByHash) && Continues(replies(i)) {
      BatchesFromShape(info, filesByHash, replies, i + 1);
      var rest := BatchesFrom(info, filesByHash, replies, i + 1).1;
      var sent := BatchesFrom(info, filesByHash, replies, i).1;
      assert sent == [RequestFor(info, filesByHash, i)] + rest;
      forall k | i < k < i + |sent|
        ensures Known(info.buckets[k], filesByHash) && sent[k - i] == RequestFor(info, filesByHash, k)
      {
        assert sent[k - i] == rest[k - (i + 1)];
      }
    }
  }

  /** Buckets are sent strictly in plan order, one request per bucket, each
      carrying exactly that bucket's hashes and files and the session token,
      which is never replaced. */
  lemma RequestsFollowBuckets(info: UploadInfo, filesByHash: map<string, AssetFile>, replies: nat -> BatchReply)
    ensures var (_, sent) := BatchUpload(info, filesByHash, replies);
      && |sent| <= |info.buckets|
      && forall k :: 0 <= k < |sent| ==>
           && sent[k].token == info.jwt
           && sent[k].hashes == info.buckets[k]
           && Known(info.buckets[k], filesByHash)
           && |sent[k].files| == |info.buckets[k]|
           && forall h :: 0 <= h < |info.buckets[k]| ==> sent[k].files[h] == filesByHash[info.buckets[k][h]]
  {
    if info.buckets != [] {
      BatchesFromShape(info, filesByHash, replies, 0);
      var sent := BatchesFrom(info, filesByHash, replies, 0).1;
      forall k | 0 <= k < |sent|
        ensures sent[k] == RequestFor(info, filesByHash, k)
      {
        assert sent[k - 0] == RequestFor(info, filesByHash, k);
      }
    }
  }

  /** With no buckets, the session token comes back and nothing is sent. */
  lemma EmptyPlanSendsNothing(info: UploadInfo, filesByHash: map<string, AssetFile>, replies: nat -> BatchReply)
    requires info.buckets == []
    ensures BatchUpload(info, filesByHash, replies) == (Success(info.jwt), [])
  {
  }

  /** A bucket with a hash that has no file is never sent, and neither is any
      later bucket. */
  lemma UnknownHashStopsUpload(info: UploadInfo, filesByHash: map<string, AssetFile>, replies: nat -> BatchReply, k: nat)
    requires k < |info.buckets| && !Known(info.buckets[k], filesByHash)
    ensures |BatchUpload(info, filesByHash, replies).1| <= k
  {
    BatchesFromShape(info, filesByHash, replies, 0);
    assert BatchUpload(info, filesByHash, replies) == BatchesFrom(info, filesByHash, replies, 0);
  }

  /** A bucket holding a hash that has no file, reached after every earlier
      bucket was sent and moved on, ends the upload with "Unknown file hash"
      after exactly the `k` earlier requests. */
  lemma UnknownHashFails(info: UploadInfo, filesByHash: map<string, AssetFile>, replies: nat -> BatchReply, k: nat)
    requires k < |info.buckets| && !Known(info.buckets[k], filesByHash)
    requires forall j :: 0 <= j < k ==> Known(info.buckets[j], filesByHash) && Continues(replies(j))
    ensures BatchUpload(info, filesByHash, replies).0 == Failure(PlainError(UnknownFileHash))
    ensures |BatchUpload(info, filesByHash, replies).1| == k
  {
    ReachBucket(info, filesByHash, replies, k);
  }

  /** Once buckets `0..k` have all been sent and moved on, the rest of the
      upload is the run from bucket `k`. */
  lemma {:induction false} ReachBucket(info: UploadInfo, filesByHash: map<string, AssetFile>, replies: nat -> BatchReply, k: nat)
    requires k <= |info.buckets|
    requires forall j :: 0 <= j < k ==> Known(info.buckets[j], filesByHash) && Continues(replies(j))
    ensures var rest := BatchesFrom(info, filesByHash, replies, k);
      && BatchesFrom(info, filesByHash, replies, 0).0 == rest.0
      && BatchesFrom(info, filesByHash, replies, 0).1
           == seq(k, j requires 0 <= j < k => RequestFor(info, filesByHash, j)) + rest.1
  {
    if k > 0 {
      ReachBucket(info, filesByHash, replies, k - 1);
      var before := seq(k - 1, j requires 0 <= j < k - 1 => RequestFor(info, filesByHash, j));
      var after := seq(k, j requires 0 <= j < k => RequestFor(info, filesByHash, j));
      assert after == before + [RequestFor(info, filesByHash, k - 1)];
    }
  }

  /** The first reply carrying a non-empty token ends the upload with that
      token; later buckets are not sent. */
  lemma FirstTokenWins(info: UploadInfo, filesByHash: map<string, AssetFile>, replies: nat -> BatchReply, k: nat, token: string)
    requires k < |info.buckets|
    requires forall j :: 0 <= j <= k ==> Known(info.buckets[j], filesByHash)
    requires forall j :: 0 <= j < k ==> Continues(replies(j))
    requires replies(k) == Body(true, token) && token != ""
    ensures BatchUpload(info, filesByHash, replies).0 == Success(token)
    ensures |BatchUpload(info, filesByHash, replies).1| == k + 1
  {
    ReachBucket(info, filesByHash, replies, k);
  }

  /** A non-OK status, a body that is not JSON, or an OK body with
      `success: false`, ends the upload with an error; later buckets are not
      sent. */
  lemma FailedReplyStops(info: UploadInfo, filesByHash: map<string, AssetFile>, replies: nat -> BatchReply, k: nat)
    requires k < |info.buckets|
    requires forall j :: 0 <= j <= k ==> Known(info.buckets[j], filesByHash)
    requires forall j :: 0 <= j < k ==> Continues(replies(j))
    requires replies(k).HttpFail? || replies(k).Unparsable? || (replies(k).Body? && !replies(k).success)
    ensures BatchUpload(info, filesByHash, replies).0
            == Failure(if replies(k).HttpFail? then HttpFailure(replies(k).status, replies(k).text)
                       else if replies(k).Unparsable? then SyntaxError(replies(k).message)
                       else PlainError(UploadRejected))
    ensures |BatchUpload(info, filesByHash, replies).1| == k + 1
  {
    ReachBucket(info, filesByHash, replies, k);
  }

  /** When every bucket is sent and no reply carries a token, the upload
      fails after sending them all. */
  lemma MissingTokenFails(info: UploadInfo, filesByHash: map<string, AssetFile>, replies: nat -> BatchReply)
    requires info.buckets != []
    requires forall j :: 0 <= j < |info.buckets| ==> Known(info.buckets[j], filesByHash) && Continues(replies(j))
    ensures BatchUpload(info, filesByHash, replies).0 == Failure(PlainError(NoCompletionToken))
    ensures |BatchUpload(info, filesByHash, replies).1| == |info.buckets|
  {
    ReachBucket(info, filesByHash, replies, |info.buckets|);
  }

  // ---------------------------------------------------------------------------
  // Publishing a worker

  /** File content as `Buffer.from(text, encoding)` gives it: the text read as
      UTF-8 or decoded from base64. The codecs themselves are not modelled. */
  datatype FileContent = Utf8(text: string) | Base64(text: string)

  datatype WorkerFile = WorkerFile(name: string, content: FileContent, mimeType: string)

  datatype WorkerScript = WorkerScript(mainFileName: string, files: seq<WorkerFile>)

  /** A file as a caller submits it, with its encoding flag. */
  datatype SubmittedFile = SubmittedFile(name: string, content: string, mimeType: string, base64: bool)

  function Decode(file: SubmittedFile): WorkerFile
  {
    WorkerFile(file.name, if file.base64 then Base64(file.content) else Utf8(file.content), file.mimeType)
  }

  /** The `files.map(...)` both callers apply before publishing: each file
      decoded as base64 when flagged and as UTF-8 otherwise, with its name,
      type and position kept. */
  function DecodeFiles(files: seq<SubmittedFile>): (r: seq<WorkerFile>)
    ensures |r| == |files|
    ensures forall i :: 0 <= i < |files| ==>
      && r[i].name == files[i].name && r[i].mimeType == files[i].mimeType
      && r[i].content.text == files[i].content
      && (r[i].content.Base64? <==> files[i].base64)
  {
    seq(|files|, i requires 0 <= i < |files| => Decode(files[i]))
  }

  datatype Binding = AssetsBinding(name: string) | D1Binding(name: string, id: JsValue)

  /** The metadata a caller passes to `deployWorker` (all but `main_module`). */
  datatype DeploySettings = DeploySettings(
    tags: seq<string>,
    assetsJwt: Option<string>,
    bindings: seq<Binding>,
    observability: bool,
    compatibilityDate: string,
    compatibilityFlags: seq<string>)

  const CompatibilityDate := "2025-06-20"
  const CompatibilityFlags := ["nodejs_compat"]

  /** The metadata both callers compose for a tenant: its ownership tag, the
      asset token, an assets binding and a D1 binding to the database's uuid,
      observability on, and the fixed compatibility settings. */
  function PublishSettings(user: string, assetsJwt: Option<string>, d1: JsObject): (s: DeploySettings)
    ensures s.tags == ["user:" + user] && s.assetsJwt == assetsJwt
    ensures |s.bindings| == 2
    ensures forall b :: b in s.bindings <==> b == AssetsBinding("ASSETS") || b == D1Binding("SQLITE", Get(d1, "uuid"))
    ensures s.observability
  {
    DeploySettings(["user:" + user], assetsJwt, [AssetsBinding("ASSETS"), D1Binding("SQLITE", Get(d1, "uuid"))],
                   true, CompatibilityDate, CompatibilityFlags)
  }

  /** The `scripts.update` request. */
  datatype ScriptUpdate = ScriptUpdate(
    namespace: string,
    workerName: string,
    mainModule: string,
    settings: DeploySettings,
    files: map<string, WorkerFile>)

  /** `Object.fromEntries` over the files: one entry per name, and for a name
      that occurs more than once the last file wins. */
  function FilesByName(files: seq<WorkerFile>): (m: map<string, WorkerFile>)
    ensures forall i :: 0 <= i < |files| ==> files[i].name in m
    ensures forall name :: name in m ==>
      exists i :: 0 <= i < |files| && files[i].name == name && m[name] == files[i]
                  && forall j :: i < j < |files| ==> files[j].name != name
  {
    if files == [] then map[]
    else
      var last := files[|files| - 1];
      var m := FilesByName(files[..|files| - 1])[last.name := last];
      assert forall i :: 0 <= i < |files| - 1 ==> files[..|files| - 1][i] == files[i];
      m
  }

  /** `deployWorker`: one `scripts.update` call whose `main_module` is the
      worker's main file, whose other metadata is the caller's, and whose files
      are keyed by name; the reply goes through `required`, and any failure is
      rethrown as it is. */
  function DeployWorker(namespace: string, workerName: string, worker: WorkerScript, settings: DeploySettings,
                        reply: Result<JsObject, Error>): (out: (ScriptUpdate, Result<JsObject, Error>))
    ensures out.0.namespace == namespace && out.0.workerName == workerName
    ensures out.0.mainModule == worker.mainFileName && out.0.settings == settings
    ensures out.0.files == FilesByName(worker.files)
    ensures out.1.Success? <==> reply.Success? && AllDefined(reply.value)
    ensures out.1.Success? ==> out.1.value == reply.value
    ensures reply.Failure? ==> out.1 == reply
  {
    (ScriptUpdate(namespace, workerName, worker.mainFileName, settings, FilesByName(worker.files)), RequireReply(reply))
  }
}
