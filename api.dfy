/** The `/upload` route of src/index.ts: negotiate an upload for a sample
    asset, upload it (failures swallowed), get or create the tenant's D1
    database (failures propagate), then publish the submitted worker bound to
    both; and the `onError` mapping of anything thrown to a 500 response. */
module Api {
  import opened Wrappers
  import opened Util
  import opened Resources
  import opened ScriptUpload

  const Namespace := "tiwi"
  const WorkerName := "customer-worker-1"
  const User := "customer-1"
  const UserLocationHint := "weur"

  const SampleAssetFileName := "/hello_world.txt"
  const SampleAssetContentType := "text/plain"
  /** `Buffer.from('Howdy!')`: the UTF-8 bytes of the sample asset. */
  const SampleAssetBytes: seq<byte> := [72, 111, 119, 100, 121, 33]

  /** The validated JSON body of the request. */
  datatype UploadBody = UploadBody(mainFileName: string, files: seq<SubmittedFile>)

  datatype Response = Response(status: nat, ok: bool, errors: seq<string>)

  const Ok := Response(200, true, [])

  /** `app.onError`: whatever was thrown becomes a 500 carrying its message. */
  function OnError(err: Error): Response
  {
    Response(500, false, [err.message])
  }

  /** A remote call the handler makes, in the order it makes them. */
  datatype Call =
    | NegotiateAssets(negotiation: AssetUploadCall)
    | UploadBatch(batch: BatchRequest)
    | D1(d1: D1Call)
    | PublishScript(update: ScriptUpdate)

  /** The one-entry manifest for the sample asset; `assetHash` is the first 32
      hex digits of its SHA-256, computed outside the model. */
  function SampleManifest(assetHash: string): (m: AssetManifest)
    ensures m.Keys == {SampleAssetFileName}
    ensures m[SampleAssetFileName].hash == assetHash
    ensures m[SampleAssetFileName].size == |SampleAssetBytes| == 6
  {
    map[SampleAssetFileName := FileMetadata(assetHash, |SampleAssetBytes|)]
  }

  function SampleFiles(assetHash: string): map<string, AssetFile>
  {
    map[assetHash := AssetFile(SampleAssetFileName, SampleAssetBytes, SampleAssetContentType)]
  }

  function BatchCalls(sent: seq<BatchRequest>): (calls: seq<Call>)
    ensures |calls| == |sent| && forall i :: 0 <= i < |sent| ==> calls[i] == UploadBatch(sent[i])
  {
    seq(|sent|, i requires 0 <= i < |sent| => UploadBatch(sent[i]))
  }

  function D1Calls(log: seq<D1Call>): (calls: seq<Call>)
    ensures |calls| == |log| && forall i :: 0 <= i < |log| ==> calls[i] == D1(log[i])
  {
    seq(|log|, i requires 0 <= i < |log| => D1(log[i]))
  }

  /** The asset upload inside its try block: the token it returns, or
      `undefined` when it throws (or the negotiation reply does not have the
      declared shape); and the requests it sent. */
  function AssetsToken(negotiated: JsObject, assetHash: string, replies: nat -> BatchReply): (out: (Option<string>, seq<BatchRequest>))
    ensures out.0.Some? <==>
      ReadUploadInfo(negotiated).Some?
      && BatchUpload(ReadUploadInfo(negotiated).value, SampleFiles(assetHash), replies).0.Success?
    ensures out.0.Some? ==> out.0.value == BatchUpload(ReadUploadInfo(negotiated).value, SampleFiles(assetHash), replies).0.value
  {
    match ReadUploadInfo(negotiated)
    case None => (None, [])
    case Some(info) =>
      var upload := BatchUpload(info, SampleFiles(assetHash), replies);
      (if upload.0.Success? then Some(upload.0.value) else None, upload.1)
  }

  /** The response, the remote calls in order, and the D1 account afterwards. */
  datatype Outcome = Outcome(response: Response, calls: seq<Call>, d1: D1State, d1Log: seq<D1Call>)

  /** The publish step: the `scripts.update` request for the submitted worker,
      bound to the database `db` and carrying the asset token, and the
      response it leads to. */
  function Publish(body: UploadBody, assetsToken: Option<string>, db: JsObject, publishReply: Result<JsObject, Error>)
    : (ScriptUpdate, Response)
  {
    var script := WorkerScript(body.mainFileName, DecodeFiles(body.files));
    var publish := DeployWorker(Namespace, WorkerName, script, PublishSettings(User, assetsToken, db), publishReply);
    (publish.0, if publish.1.Failure? then OnError(publish.1.error) else Ok)
  }

  /** Everything after the asset upload: get or create the database, then
      publish only if that succeeded. */
  function FromDatabase(s: D1State, body: UploadBody, assetsToken: Option<string>, publishReply: Result<JsObject, Error>): Outcome
  {
    var d1 := GetOrCreate(s, User, Some(UserLocationHint));
    if d1.0.Failure? then Outcome(OnError(d1.0.error), D1Calls(d1.2), d1.1, d1.2)
    else
      var publish := Publish(body, assetsToken, d1.0.value, publishReply);
      Outcome(publish.1, D1Calls(d1.2) + [PublishScript(publish.0)], d1.1, d1.2)
  }

  /** What the handler does, given the account's D1 state and the platform's
      replies to the negotiation, to each bucket and to the publish call. */
  function Handle(s: D1State, body: UploadBody, assetHash: string, negotiateReply: Result<JsObject, Error>,
                  batchReplies: nat -> BatchReply, publishReply: Result<JsObject, Error>): Outcome
  {
    var negotiation := CreateAssetsUpload(Namespace, WorkerName, SampleManifest(assetHash), negotiateReply);
    var first := NegotiateAssets(negotiation.0);
    if negotiation.1.Failure? then Outcome(OnError(negotiation.1.error), [first], s, [])
    else
      var assets := AssetsToken(negotiation.1.value, assetHash, batchReplies);
      var rest := FromDatabase(s, body, assets.0, publishReply);
      rest.(calls := [first] + BatchCalls(assets.1) + rest.calls)
  }

  /** The try block around the asset upload: its token, or `undefined` when
      it throws (the catch block only logs), and the requests it sent. */
  method UploadSampleAsset(uploadInfo: JsObject, assetHash: string, batchReplies: nat -> BatchReply)
    returns (assetsToken: Option<string>, sent: seq<BatchRequest>)
    ensures (assetsToken, sent) == AssetsToken(uploadInfo, assetHash, batchReplies)
  {
    assetsToken, sent := None, [];
    var info := ReadUploadInfo(uploadInfo);
    if info.Some? {
      var token;
      token, sent := UploadAssetsBatch(info.value, SampleFiles(assetHash), batchReplies);
      if token.Success? {
        assetsToken := Some(token.value);
      }
    }
  }

  /** The `/upload` handler, with `uploadFilesBatch` read as `uploadAssetsBatch`
      and `uploadScript(namespace, {name, script}, metadata)` read as
      `deployWorker(namespace, name, script, metadata)`. */
  method HandleUpload(account: D1Account, body: UploadBody, assetHash: string, negotiateReply: Result<JsObject, Error>,
                      batchReplies: nat -> BatchReply, publishReply: Result<JsObject, Error>)
    returns (response: Response, calls: seq<Call>)
    modifies account
    ensures var out := Handle(old(account.State()), body, assetHash, negotiateReply, batchReplies, publishReply);
            && response == out.response && calls == out.calls
            && account.State() == out.d1 && account.log == old(account.log) + out.d1Log
  {
    ghost var s0 := account.State();
    var negotiated := CreateAssetsUpload(Namespace, WorkerName, SampleManifest(assetHash), negotiateReply);
    calls := [NegotiateAssets(negotiated.0)];
    if negotiated.1.Failure? {
      return OnError(negotiated.1.error), calls;
    }
    // `uploadInfo !== null` always holds: `required` never returns null.
    var assetsToken, sent := UploadSampleAsset(negotiated.1.value, assetHash, batchReplies);
    calls := calls + BatchCalls(sent);
    ghost var prefix := calls;
    var before := |account.log|;
    var d1 := GetOrCreateD1(account, User, Some(UserLocationHint));
    ghost var rest := FromDatabase(s0, body, assetsToken, publishReply);
    calls := calls + D1Calls(account.log[before..]);
    if d1.Failure? {
      return OnError(d1.error), calls;
    }
    var published := Publish(body, assetsToken, d1.value, publishReply);
    calls := calls + [PublishScript(published.0)];
    assert calls == prefix + rest.calls;
    response := published.1;
  }

  /** Position of a call in the handler's fixed sequence of steps. */
  function Step(c: Call): nat
  {
    match c
    case NegotiateAssets(_) => 0
    case UploadBatch(_) => 1
    case D1(_) => 2
    case PublishScript(_) => 3
  }

  /** After the upload: the D1 calls, then the publish call if there is one. */
  lemma FromDatabaseCalls(s: D1State, body: UploadBody, assetsToken: Option<string>, publishReply: Result<JsObject, Error>)
    ensures var out := FromDatabase(s, body, assetsToken, publishReply);
            var n := |GetOrCreate(s, User, Some(UserLocationHint)).2|;
            && n <= |out.calls| <= n + 1
            && (forall i :: 0 <= i < |out.calls| ==> Step(out.calls[i]) == if i < n then 2 else 3)
            && (|out.calls| == n + 1 <==> GetOrCreate(s, User, Some(UserLocationHint)).0.Success?)
  {
  }

  /** The negotiation comes first; then the bucket uploads, then the D1 calls,
      then at most one publish, never out of that order. */
  lemma CallOrder(s: D1State, body: UploadBody, assetHash: string, negotiateReply: Result<JsObject, Error>,
                  batchReplies: nat -> BatchReply, publishReply: Result<JsObject, Error>)
    ensures var calls := Handle(s, body, assetHash, negotiateReply, batchReplies, publishReply).calls;
            && |calls| > 0
            && calls[0] == NegotiateAssets(AssetUploadCall(Namespace, WorkerName, SampleManifest(assetHash)))
            && forall i, j :: 0 <= i < j < |calls| ==> Step(calls[i]) <= Step(calls[j]) && !calls[i].PublishScript?
  {
    var calls := Handle(s, body, assetHash, negotiateReply, batchReplies, publishReply).calls;
    var negotiation := CreateAssetsUpload(Namespace, WorkerName, SampleManifest(assetHash), negotiateReply);
    if negotiation.1.Success? {
      var assets := AssetsToken(negotiation.1.value, assetHash, batchReplies);
      var rest := FromDatabase(s, body, assets.0, publishReply);
      FromDatabaseCalls(s, body, assets.0, publishReply);
      var batches := BatchCalls(assets.1);
      assert calls == [NegotiateAssets(negotiation.0)] + batches + rest.calls;
      var n1 := 1 + |batches|;
      var n2 := n1 + |GetOrCreate(s, User, Some(UserLocationHint)).2|;
      forall i | 0 <= i < |calls|
        ensures Step(calls[i]) == if i == 0 then 0 else if i < n1 then 1 else if i < n2 then 2 else 3
        ensures calls[i].PublishScript? ==> i == |calls| - 1
      {
        if n1 <= i {
          assert calls[i] == rest.calls[i - n1];
        }
      }
    }
  }

  /** When the database cannot be had, the publish call is never made and the
      response is the 500 for that error (or for the negotiation's, which
      failed even earlier). */
  lemma NoPublishWithoutDatabase(s: D1State, body: UploadBody, assetHash: string, negotiateReply: Result<JsObject, Error>,
                                 batchReplies: nat -> BatchReply, publishReply: Result<JsObject, Error>)
    requires GetOrCreate(s, User, Some(UserLocationHint)).0.Failure?
    ensures var out := Handle(s, body, assetHash, negotiateReply, batchReplies, publishReply);
            && (forall c :: c in out.calls ==> !c.PublishScript?)
            && out.response.status == 500 && !out.response.ok
            && (RequireReply(negotiateReply).Success? ==>
                  out.response == OnError(GetOrCreate(s, User, Some(UserLocationHint)).0.error))
  {
    CallOrder(s, body, assetHash, negotiateReply, batchReplies, publishReply);
    var out := Handle(s, body, assetHash, negotiateReply, batchReplies, publishReply);
    forall c | c in out.calls
      ensures !c.PublishScript?
    {
      var i :| 0 <= i < |out.calls| && out.calls[i] == c;
      assert Step(c) <= 2;
    }
  }

  /** The `scripts.update` request the publish step sends: the tenant's worker
      in the fixed namespace, the body's main file, the decoded files keyed by
      name, exactly the assets binding and the D1 binding to `db`'s uuid, the
      one ownership tag, and the asset token as given. */
  predicate PublishesWorker(u: ScriptUpdate, body: UploadBody, assetsToken: Option<string>, db: JsObject)
  {
    && u.namespace == Namespace && u.workerName == WorkerName
    && u.mainModule == body.mainFileName
    && u.files == FilesByName(DecodeFiles(body.files))
    && u.settings.bindings == [AssetsBinding("ASSETS"), D1Binding("SQLITE", Get(db, "uuid"))]
    && u.settings.tags == ["user:" + User]
    && u.settings.assetsJwt == assetsToken
  }

  lemma PublishRequest(body: UploadBody, assetsToken: Option<string>, db: JsObject, publishReply: Result<JsObject, Error>)
    ensures PublishesWorker(Publish(body, assetsToken, db, publishReply).0, body, assetsToken, db)
  {
  }

  /** After the upload, a publish call is made only once the database was had,
      as the last call, and for that database. */
  lemma FromDatabasePublish(s: D1State, body: UploadBody, assetsToken: Option<string>, publishReply: Result<JsObject, Error>, k: nat)
    requires var calls := FromDatabase(s, body, assetsToken, publishReply).calls;
             k < |calls| && calls[k].PublishScript?
    ensures var calls := FromDatabase(s, body, assetsToken, publishReply).calls;
            var db := GetOrCreate(s, User, Some(UserLocationHint)).0;
            && k == |calls| - 1 && db.Success?
            && PublishesWorker(calls[k].update, body, assetsToken, db.value)
  {
    var db := GetOrCreate(s, User, Some(UserLocationHint)).0;
    FromDatabaseCalls(s, body, assetsToken, publishReply);
    if db.Success? {
      PublishRequest(body, assetsToken, db.value, publishReply);
    }
  }

  /** The publish call, when made, is the last call; the negotiation and the
      database step both succeeded, and it carries the database just obtained
      and the token the asset upload produced (undefined when it failed). */
  lemma PublishComposition(s: D1State, body: UploadBody, assetHash: string, negotiateReply: Result<JsObject, Error>,
                           batchReplies: nat -> BatchReply, publishReply: Result<JsObject, Error>, i: nat)
    requires var calls := Handle(s, body, assetHash, negotiateReply, batchReplies, publishReply).calls;
             i < |calls| && calls[i].PublishScript?
    ensures var calls := Handle(s, body, assetHash, negotiateReply, batchReplies, publishReply).calls;
            var db := GetOrCreate(s, User, Some(UserLocationHint)).0;
            && i == |calls| - 1
            && RequireReply(negotiateReply).Success? && db.Success?
            && PublishesWorker(calls[i].update, body,
                               AssetsToken(RequireReply(negotiateReply).value, assetHash, batchReplies).0, db.value)
  {
    var calls := Handle(s, body, assetHash, negotiateReply, batchReplies, publishReply).calls;
    var negotiation := CreateAssetsUpload(Namespace, WorkerName, SampleManifest(assetHash), negotiateReply);
    var assets := AssetsToken(negotiation.1.value, assetHash, batchReplies);
    var rest := FromDatabase(s, body, assets.0, publishReply);
    var n1 := 1 + |assets.1|;
    assert calls == [NegotiateAssets(negotiation.0)] + BatchCalls(assets.1) + rest.calls;
    assert n1 <= i && calls[i] == rest.calls[i - n1];
    FromDatabasePublish(s, body, assets.0, publishReply, i - n1);
  }

  /** A failure inside the asset upload is swallowed: the response and the
      database step do not depend on how the platform answers the buckets. */
  lemma AssetFailureSwallowed(s: D1State, body: UploadBody, assetHash: string, negotiateReply: Result<JsObject, Error>,
                              replies: nat -> BatchReply, replies': nat -> BatchReply, publishReply: Result<JsObject, Error>)
    ensures var out := Handle(s, body, assetHash, negotiateReply, replies, publishReply);
            var out' := Handle(s, body, assetHash, negotiateReply, replies', publishReply);
            out.response == out'.response && out.d1 == out'.d1 && out.d1Log == out'.d1Log
  {
  }

  /** The response is `{ok: true, errors: []}` exactly when the negotiation, the
      database step and the publish all succeed; otherwise it is a 500 carrying
      the message of the first of those errors, the one that stopped the
      handler. */
  lemma ResponseOutcome(s: D1State, body: UploadBody, assetHash: string, negotiateReply: Result<JsObject, Error>,
                        batchReplies: nat -> BatchReply, publishReply: Result<JsObject, Error>)
    ensures var out := Handle(s, body, assetHash, negotiateReply, batchReplies, publishReply);
            && (out.response.ok <==>
                  RequireReply(negotiateReply).Success?
                  && GetOrCreate(s, User, Some(UserLocationHint)).0.Success?
                  && RequireReply(publishReply).Success?)
            && (out.response.ok ==> out.response == Response(200, true, []))
            && (!out.response.ok ==> out.response.status == 500 && |out.response.errors| == 1)
            && (!out.response.ok ==>
                  var d1 := GetOrCreate(s, User, Some(UserLocationHint)).0;
                  out.response == OnError(if RequireReply(negotiateReply).Failure? then RequireReply(negotiateReply).error
                                          else if d1.Failure? then d1.error
                                          else RequireReply(publishReply).error))
  {
  }
}
